# Chat transcripts, leasing helpers, worksheet row deletion, batch flags and access control

This project is a Dafny model of the logic at the core of a Node.js batch server. It covers the following parts.

- **Chat transcripts.** A stored conversation is a list of turns, each with a speaker (`USER`, `BOT`, `AGENT`, `null` or anything else) and its data (a string, an object, or `undefined` or `null`); an entry of the list may itself be `null`. `WrapperChat.chatHistory` picks a channel adapter by its upper-cased name: web chat, Facebook, Google Business Messages or WhatsApp. The adapter prints every turn under a speaker header. Web-chat bot content, and the data packet that may follow Facebook and Google content, is a tree of rich nodes (`{type, data}`). The `HandleDataPacket` renderer prints these by dispatching on two tag lists and two switches. Every renderer can throw (a property read on `undefined`), so renderings are `Result`s, and a throw ends the transcript.
- **Leasing helpers.** These are:
  - phone-number normalisation;
  - message and language-code lookup;
  - `<%…>` placeholder substitution;
  - the two SFTP row validators;
  - grouping ticket ids by manager e-mail;
  - the `controlLPAFlow` switch.
- **Worksheet helpers.**
  - `zeroPad` and `clamp_range`.
  - `delete_rows` on a sparse worksheet: it moves the cells up, clears the tail, rewrites formula references, shrinks the range, updates the merges and splices the row properties.
  - `formate_Coloumns`.
- **Batch flag registry.** Per-corporate flag entries with add, delete, edit and list requests. Each request first validates its fields (a non-empty string corporate and flag, and an object config where one is needed), then checks the flag against the configured flags.
- **Access decisions.** These are:
  - which URLs are protected;
  - how HTTP Basic credentials (section 2 of RFC 7617) are split into user and password;
  - how configured users, stored users and the default administrator are allowed or refused.
- **Server configuration.** Loading the JSON configuration and reading keys with defaults.

Each source file becomes one module:

| module | file | source |
|---|---|---|
| `Wrappers` | `wrappers.dfy` | `Option` and `Result` |
| `JsText` | `jstext.dfy` | the JavaScript string operations the code relies on |
| `DataPacket` | `datapacket.dfy` | the packet tree and its rendering as functions |
| `HandleDataPacket` | `handledatapacket.dfy` | the renderer class with its loops |
| `Turns` | `turns.dfy` | turns and the shared transcript loop |
| `WebChat`, `WhatsAppChat`, `FaceBookChat`, `GoogleMessagesChat` | one file each | the four channel adapters |
| `WrapperChat` | `wrapperchat.dfy` | the channel dispatch |
| `LeasingServices` | `leasingservices.dfy` | the leasing helpers |
| `HelperFns` | `helperfns.dfy` | the worksheet helpers |
| `BatchFlags` | `batchflags.dfy` | the flag registry |
| `AuthService` | `authservice.dfy` | the access decisions |
| `ServerConfig` | `serverconfig.dfy` | the configuration |

Code that builds a string with `+=` in a loop, or updates an object in place, is a `method` with loop invariants. Each such method is proved equal to a function, and the lemmas are stated about that function. The worksheet is a class whose `cells`, `ref`, `merges` and `rows` fields `DeleteRows` reassigns. So are the flag registry, the leasing service's switch and the configuration holder.

External inputs become parameters:
- the database (the users collection, the flag collection);
- base64 decoding;
- JSON parsing.

## Model

| member | source | states |
|---|---|---|
| `DataPacket.PrimitiveEachAppend` | backend/README/src/batchProcess/WinnowPro/TextChatHistory/HandleDataPacket/HandleDataPacket.js:117-119 | rendering the sections `a + b` is rendering `a`, then `b`, with nothing between |
| `DataPacket.ButtonLinesAppend` | backend/README/src/batchProcess/WinnowPro/TextChatHistory/HandleDataPacket/HandleDataPacket.js:123-126 | the button lines of `a + b` are those of `a` followed by those of `b` |
| `DataPacket.ButtonLinesOk` | backend/README/src/batchProcess/WinnowPro/TextChatHistory/HandleDataPacket/HandleDataPacket.js:123-126 | the button lines render exactly when every button has its `optionData` |
| `DataPacket.TableIsRowMajor` | backend/README/src/batchProcess/WinnowPro/TextChatHistory/HandleDataPacket/HandleDataPacket.js:208-217 | a table renders as the primitive renderings of its cells in row-major order, with no separator |
| `DataPacket.CardSectionsThenButtons` | backend/README/src/batchProcess/WinnowPro/TextChatHistory/HandleDataPacket/HandleDataPacket.js:114-131 | a card prints all its sections, then all its buttons; splitting either list splits the output at the same place |
| `DataPacket.CrashFreePrimitive` | backend/README/src/batchProcess/WinnowPro/TextChatHistory/HandleDataPacket/HandleDataPacket.js:18-90 | a tree with no IMAGE_ARRAY, no node whose case reads a `data` it lacks, no missing SECTIONS, CARDS, BUTTONS, FIELDS, ROWS, CELLS or IMAGES list, and no button without `optionData` never throws on the primitive path |
| `DataPacket.CrashFreeComposite` | backend/README/src/batchProcess/WinnowPro/TextChatHistory/HandleDataPacket/HandleDataPacket.js:94-171 | the same tree never throws on the composite path |
| `DataPacket.CrashFreeRenders` | backend/README/src/batchProcess/WinnowPro/TextChatHistory/HandleDataPacket/HandleDataPacket.js:8-15 | the same for `handleBot`, whichever list the tag is in |
| `DataPacket.CrashFreeEach` | backend/README/src/batchProcess/WinnowPro/TextChatHistory/HandleDataPacket/HandleDataPacket.js:138-143 | a list of such nodes renders without throwing on either path |
| `DataPacket.CrashFreeRows` | backend/README/src/batchProcess/WinnowPro/TextChatHistory/HandleDataPacket/HandleDataPacket.js:211-215 | table rows that each carry their CELLS, all of such nodes, render without throwing |
| `DataPacket.MissingListsThrow` | backend/README/src/batchProcess/WinnowPro/TextChatHistory/HandleDataPacket/HandleDataPacket.js:114-171 | a card without SECTIONS, or with no sections and no BUTTONS, a card group without CARDS, and a FILLED_FORM without FIELDS all throw |
| `DataPacket.UnlabelledButtonThrows` | backend/README/src/batchProcess/WinnowPro/TextChatHistory/HandleDataPacket/HandleDataPacket.js:123-159 | a button without `optionData` makes OPTIONS and a card throw, even after a good button |
| `DataPacket.MissingRowsThrow` | backend/README/src/batchProcess/WinnowPro/TextChatHistory/HandleDataPacket/HandleDataPacket.js:208-233 | a TABLE without ROWS, a row without CELLS, and an image group without IMAGES throw |
| `DataPacket.BareRenderings` | backend/README/src/batchProcess/WinnowPro/TextChatHistory/HandleDataPacket/HandleDataPacket.js:18-112 | a node with only its `type` throws on the primitive path exactly when its case reads `data` (all but TEXT, the separators, PHOTO, VOICE and SINGLE_OPTION), and on the composite path exactly when its tag is composite |
| `DataPacket.BareTextUndefined` | backend/README/src/batchProcess/WinnowPro/TextChatHistory/HandleDataPacket/HandleDataPacket.js:175-178 | a TEXT node without `data` prints "\nundefined" |
| `DataPacket.ImageArrayThrows` | backend/README/src/batchProcess/WinnowPro/TextChatHistory/HandleDataPacket/HandleDataPacket.js:273-281 | IMAGE_ARRAY always throws: its key loop reaches the node's `type` key, whose `.data.title` is read on `undefined` |
| `DataPacket.Placeholders` | backend/README/src/batchProcess/WinnowPro/TextChatHistory/HandleDataPacket/HandleDataPacket.js:87-109 | a node that no primitive case matches renders exactly "Unhandled FROM DATAPACKET"; one that no composite case matches renders exactly "Unhandled non Datapacket"; neither throws |
| `DataPacket.UnlistedTagRenderings` | backend/README/src/batchProcess/WinnowPro/TextChatHistory/HandleDataPacket/HandleDataPacket.js:13-15 | a tag in neither list prints as "\n[object Object]" |
| `DataPacket.MisspeltSeparatorUnhandled` | backend/README/src/batchProcess/WinnowPro/TextChatHistory/HandleDataPacket/HandleDataPacket.js:4-88 | a top-level HSEPERETOR is listed as primitive but matches no case, so it renders "Unhandled FROM DATAPACKET" |
| `DataPacket.SeparatorCaseUnreachable` | backend/README/src/batchProcess/WinnowPro/TextChatHistory/HandleDataPacket/HandleDataPacket.js:32-33 | HSEPARATOR renders "" inside `handlePrimitiveType`, but at top level it is in no list and prints "\n[object Object]" |
| `DataPacket.VerticalSeparatorEmpty` | backend/README/src/batchProcess/WinnowPro/TextChatHistory/HandleDataPacket/HandleDataPacket.js:47-48 | VSEPERETOR is listed and matched, and renders "" |
| `DataPacket.OptionsPacketFirst` | backend/README/src/batchProcess/WinnowPro/TextChatHistory/HandleDataPacket/HandleDataPacket.js:151-162 | OPTIONS prints the packet on a `\n ` line only when there is one, then the option buttons |
| `DataPacket.FilledFormInOrder` | backend/README/src/batchProcess/WinnowPro/TextChatHistory/HandleDataPacket/HandleDataPacket.js:164-171 | FILLED_FORM prints each field on its own `\n ` line, in order |
| `HandleDataPacket.PrimitiveEachStopsAtErr` | backend/README/src/batchProcess/WinnowPro/TextChatHistory/HandleDataPacket/HandleDataPacket.js:117-119 | once a prefix of the sections throws, the whole list's rendering is that throw |
| `HandleDataPacket.CompositeEachStopsAtErr` | backend/README/src/batchProcess/WinnowPro/TextChatHistory/HandleDataPacket/HandleDataPacket.js:138-140 | the same for the cards of a card group |
| `HandleDataPacket.TableRowsStopsAtErr` | backend/README/src/batchProcess/WinnowPro/TextChatHistory/HandleDataPacket/HandleDataPacket.js:211-215 | the same for the rows of a table |
| `HandleDataPacket.CardGroupParts` | backend/README/src/batchProcess/WinnowPro/TextChatHistory/HandleDataPacket/HandleDataPacket.js:133-149 | a card group prints title, description, each card, each section, then each button, in that order |
| `HandleDataPacket.Renderer.HandleBot` | backend/README/src/batchProcess/WinnowPro/TextChatHistory/HandleDataPacket/HandleDataPacket.js:8-16 | returns the `handleBot` rendering: primitive list first, then composite list, then the object string |
| `HandleDataPacket.Renderer.HandlePrimitiveType` | backend/README/src/batchProcess/WinnowPro/TextChatHistory/HandleDataPacket/HandleDataPacket.js:18-90 | returns the primitive switch's rendering of the node |
| `HandleDataPacket.Renderer.HandleNonPrimitiveType` | backend/README/src/batchProcess/WinnowPro/TextChatHistory/HandleDataPacket/HandleDataPacket.js:94-112 | returns the composite switch's rendering of the node |
| `HandleDataPacket.Renderer.AppendPrimitives` | backend/README/src/batchProcess/WinnowPro/TextChatHistory/HandleDataPacket/HandleDataPacket.js:117-119 | the section loop appends to the text so far each node's primitive rendering behind the prefix, and stops at the first throw |
| `HandleDataPacket.Renderer.AppendButtons` | backend/README/src/batchProcess/WinnowPro/TextChatHistory/HandleDataPacket/HandleDataPacket.js:123-126 | the button loop appends one `\n[[label]]` line per button, and throws at the first button without `optionData` |
| `HandleDataPacket.Renderer.CardType1` | backend/README/src/batchProcess/WinnowPro/TextChatHistory/HandleDataPacket/HandleDataPacket.js:114-131 | `cardType1` returns the card's rendering |
| `HandleDataPacket.Renderer.AppendComposites` | backend/README/src/batchProcess/WinnowPro/TextChatHistory/HandleDataPacket/HandleDataPacket.js:138-140 | the card loop appends each card's composite rendering, and stops at the first throw |
| `HandleDataPacket.Renderer.HorzCardsType1` | backend/README/src/batchProcess/WinnowPro/TextChatHistory/HandleDataPacket/HandleDataPacket.js:133-149 | `horzCardsType1` returns the card group's rendering |
| `HandleDataPacket.Renderer.OptionsType` | backend/README/src/batchProcess/WinnowPro/TextChatHistory/HandleDataPacket/HandleDataPacket.js:151-162 | `options` returns the OPTIONS rendering |
| `HandleDataPacket.Renderer.FilledFormType` | backend/README/src/batchProcess/WinnowPro/TextChatHistory/HandleDataPacket/HandleDataPacket.js:164-171 | `filledForm` returns the FILLED_FORM rendering |
| `HandleDataPacket.Renderer.TableType` | backend/README/src/batchProcess/WinnowPro/TextChatHistory/HandleDataPacket/HandleDataPacket.js:208-217 | `table` returns the TABLE rendering, and throws on missing ROWS or a row without CELLS |
| `HandleDataPacket.Renderer.HorzVertzImageType` | backend/README/src/batchProcess/WinnowPro/TextChatHistory/HandleDataPacket/HandleDataPacket.js:226-233 | one `\n ` line per image URL, in order; a missing IMAGES list throws |
| `Turns.MainDataPacketHandler` | backend/README/dist/release/src/batchProcess/WinnowPro/TextChatHistory/WebChat/WebChat.js:9-15 | the turn loop returns the transcript: every turn's rendering in order, or the first throw |
| `Turns.TranscriptStopsAtErr` | backend/README/dist/wc/ops/src/batchProcess/WinnowPro/TextChatHistory/WhatsappChat/WhatsappChat.js:8-14 | once a prefix of the turns throws, the transcript is that throw |
| `Turns.FirstThrowAborts` | backend/README/dist/wc/ops/src/batchProcess/WinnowPro/TextChatHistory/FaceBookChat/FaceBookChat.js:8-14 | the first turn that throws decides the transcript |
| `Turns.TranscriptAppend` | backend/README/dist/release/src/batchProcess/WinnowPro/TextChatHistory/GoogleMessagesChat/GoogleMessagesChat.js:8-14 | the transcript of `a + b` is that of `a` followed by that of `b` |
| `Turns.TranscriptOkIff` | backend/README/dist/release/src/batchProcess/WinnowPro/TextChatHistory/WebChat/WebChat.js:9-15 | a transcript is produced exactly when no turn throws |
| `Turns.TranscriptErrIsFirstThrow` | backend/README/dist/release/src/batchProcess/WinnowPro/TextChatHistory/WebChat/WebChat.js:9-15 | a failed transcript carries the error of the first turn that throws, and every earlier turn rendered |
| `WebChat.TranscriptOkExactly` | backend/README/dist/release/src/batchProcess/WinnowPro/TextChatHistory/WebChat/WebChat.js:17-49 | when no packet can throw, a transcript is produced exactly when every entry is a turn (not `null`) whose speaker is USER, BOT or AGENT with `data` to read (AGENT also with its details), or `null` with any data |
| `WebChat.UnknownSpeakerAborts` | backend/README/dist/release/src/batchProcess/WinnowPro/TextChatHistory/WebChat/WebChat.js:34-36 | the first unknown speaker ends the transcript with 'from not defined' |
| `WebChat.BotTurnUsesRenderer` | backend/README/dist/release/src/batchProcess/WinnowPro/TextChatHistory/WebChat/WebChat.js:23-25 | a bot turn is the BOT header, the packet renderer's output and a newline |
| `WebChat.NullSpeakerIsFlatBot` | backend/README/dist/release/src/batchProcess/WinnowPro/TextChatHistory/WebChat/WebChat.js:30-42 | a `null` speaker prints exactly as a WhatsApp bot turn prints the same data |
| `WebChat.AgentHeaders` | backend/README/dist/release/src/batchProcess/WinnowPro/TextChatHistory/WebChat/WebChat.js:26-28 | the web AGENT header has a space before the parenthesis and WhatsApp's has none; both throw without agent details, and when `data` is `undefined` or `null` |
| `WebChat.AbsentDataRenderings` | backend/README/dist/release/src/batchProcess/WinnowPro/TextChatHistory/WebChat/WebChat.js:17-49 | a `null` entry throws; USER, BOT and AGENT turns whose `data` is `undefined` or `null` throw; a `null` speaker prints such data as "undefined" or "null" |
| `WhatsAppChat.TranscriptOkExactly` | backend/README/dist/wc/ops/src/batchProcess/WinnowPro/TextChatHistory/WhatsappChat/WhatsappChat.js:16-45 | a WhatsApp transcript is produced exactly when every entry is a turn (not `null`) that is USER with `data` to read, BOT with any data, or AGENT with its details and `data` to read |
| `WhatsAppChat.UnknownSpeakerAborts` | backend/README/dist/wc/ops/src/batchProcess/WinnowPro/TextChatHistory/WhatsappChat/WhatsappChat.js:29-31 | the first other speaker, `null` included, ends the transcript with 'from not defined' |
| `WhatsAppChat.BotTurnIsPlainText` | backend/README/dist/wc/ops/src/batchProcess/WinnowPro/TextChatHistory/WhatsappChat/WhatsappChat.js:43-45 | a bot turn prints its data as text; an object prints as "[object Object]" |
| `WhatsAppChat.AbsentDataRenderings` | backend/README/dist/wc/ops/src/batchProcess/WinnowPro/TextChatHistory/WhatsappChat/WhatsappChat.js:16-45 | a `null` entry throws; USER and AGENT turns whose `data` is `undefined` or `null` throw; a bot turn prints such data as "undefined" or "null" |
| `FaceBookChat.ButtonCreate` | backend/README/dist/wc/ops/src/batchProcess/WinnowPro/TextChatHistory/FaceBookChat/FaceBookChat.js:90-104 | the button loop gives each button's line in order, and throws on a missing list |
| `FaceBookChat.ElementLines` | backend/README/dist/wc/ops/src/batchProcess/WinnowPro/TextChatHistory/FaceBookChat/FaceBookChat.js:109-115 | an element's head: title, then subtitle and image URL, or the image URL alone |
| `FaceBookChat.GenericTemplete` | backend/README/dist/wc/ops/src/batchProcess/WinnowPro/TextChatHistory/FaceBookChat/FaceBookChat.js:106-120 | the element loop gives each element's head, buttons and newline in order; the first throw wins |
| `FaceBookChat.ElementsStopAtErr` | backend/README/dist/wc/ops/src/batchProcess/WinnowPro/TextChatHistory/FaceBookChat/FaceBookChat.js:108-117 | once a prefix of the elements throws, the template is that throw |
| `FaceBookChat.ButtonLineOpens` | backend/README/dist/wc/ops/src/batchProcess/WinnowPro/TextChatHistory/FaceBookChat/FaceBookChat.js:93-101 | every button line opens with "\n[[" |
| `FaceBookChat.AttachmentFallbacks` | backend/README/dist/wc/ops/src/batchProcess/WinnowPro/TextChatHistory/FaceBookChat/FaceBookChat.js:56-76 | a non-template attachment prints "Unhandled"; a template of another type prints "undefined"; a template without a payload throws |
| `FaceBookChat.ButtonTempleteOpening` | backend/README/dist/wc/ops/src/batchProcess/WinnowPro/TextChatHistory/FaceBookChat/FaceBookChat.js:78-88 | a title opens the template with no leading newline; a text alone opens it with one; neither gives "" |
| `FaceBookChat.AttachmentBeforePacket` | backend/README/dist/wc/ops/src/batchProcess/WinnowPro/TextChatHistory/FaceBookChat/FaceBookChat.js:43-46 | the attachment prints before the data packet |
| `FaceBookChat.PacketIgnoredWithoutAttachment` | backend/README/dist/wc/ops/src/batchProcess/WinnowPro/TextChatHistory/FaceBookChat/FaceBookChat.js:47-52 | without a typed attachment the data packet is ignored and the text is printed on its own line |
| `FaceBookChat.UnknownSpeakerAborts` | backend/README/dist/wc/ops/src/batchProcess/WinnowPro/TextChatHistory/FaceBookChat/FaceBookChat.js:27-29 | the first other speaker ends the transcript with "Unhandled" |
| `FaceBookChat.AbsentDataThrows` | backend/README/dist/wc/ops/src/batchProcess/WinnowPro/TextChatHistory/FaceBookChat/FaceBookChat.js:16-43 | a `null` entry, and every USER, BOT and AGENT turn whose `data` is `undefined` or `null`, throws |
| `GoogleMessagesChat.AppendSuggestions` | backend/README/dist/release/src/batchProcess/WinnowPro/TextChatHistory/GoogleMessagesChat/GoogleMessagesChat.js:102-107 | the suggestion loop appends one `\n[[label]]` per suggestion, the label being reply text, else action text, else "" |
| `GoogleMessagesChat.AppendCard` | backend/README/dist/release/src/batchProcess/WinnowPro/TextChatHistory/GoogleMessagesChat/GoogleMessagesChat.js:60-75 | appends one card, or throws when its `media` has no `contentInfo` |
| `GoogleMessagesChat.AppendCardBody` | backend/README/dist/release/src/batchProcess/WinnowPro/TextChatHistory/GoogleMessagesChat/GoogleMessagesChat.js:61-75 | appends a card's media URL, title, description and suggestions, each only when present |
| `GoogleMessagesChat.CardsTextStopsAtErr` | backend/README/dist/release/src/batchProcess/WinnowPro/TextChatHistory/GoogleMessagesChat/GoogleMessagesChat.js:78-95 | once a card of a carousel throws, the carousel is that throw |
| `GoogleMessagesChat.HandleGoogleMessage` | backend/README/dist/release/src/batchProcess/WinnowPro/TextChatHistory/GoogleMessagesChat/GoogleMessagesChat.js:56-110 | returns the message rendering: the card or cards and "Unhandled", or the text and its suggestions; a `null` rich card, a missing `cardContent` or `cardContents`, or `media` without `contentInfo` throws |
| `GoogleMessagesChat.RichCardEndsUnhandled` | backend/README/dist/release/src/batchProcess/WinnowPro/TextChatHistory/GoogleMessagesChat/GoogleMessagesChat.js:58-99 | a message owning a rich card is printed exactly when its card text is, and then ends with "Unhandled" |
| `GoogleMessagesChat.MalformedCardsThrow` | backend/README/dist/release/src/batchProcess/WinnowPro/TextChatHistory/GoogleMessagesChat/GoogleMessagesChat.js:58-81 | a `null` rich card, a standalone card without `cardContent`, a carousel without `cardContents`, and `media` without `contentInfo` (even after good cards) throw; a `null` rich card is reached when there are suggestions |
| `GoogleMessagesChat.CardsTextAppend` | backend/README/dist/release/src/batchProcess/WinnowPro/TextChatHistory/GoogleMessagesChat/GoogleMessagesChat.js:78-95 | the cards `a + b` of a carousel print as `a`'s then `b`'s, and the first throw decides |
| `GoogleMessagesChat.CarouselOfOneIsStandalone` | backend/README/dist/release/src/batchProcess/WinnowPro/TextChatHistory/GoogleMessagesChat/GoogleMessagesChat.js:59-97 | carousel cards follow the standalone rules: a carousel of one card prints as that card standing alone |
| `GoogleMessagesChat.PlainMessageShape` | backend/README/dist/release/src/batchProcess/WinnowPro/TextChatHistory/GoogleMessagesChat/GoogleMessagesChat.js:100-108 | without a rich card the text comes first, with no leading newline, then the suggestions |
| `GoogleMessagesChat.PacketAfterMessage` | backend/README/dist/release/src/batchProcess/WinnowPro/TextChatHistory/GoogleMessagesChat/GoogleMessagesChat.js:43-46 | with a data packet, the message is printed and the packet follows it |
| `GoogleMessagesChat.FallbackToText` | backend/README/dist/release/src/batchProcess/WinnowPro/TextChatHistory/GoogleMessagesChat/GoogleMessagesChat.js:47-52 | with no packet, no truthy rich card (a `null` one counts as none) and no suggestions, the text is printed on its own line |
| `GoogleMessagesChat.NonBotTurnsAsFaceBook` | backend/README/dist/release/src/batchProcess/WinnowPro/TextChatHistory/GoogleMessagesChat/GoogleMessagesChat.js:16-39 | only bot content sets the Google adapter apart from the Facebook one: a conversation without bot turns has the same transcript, or the same throw, under both |
| `GoogleMessagesChat.AbsentBotDataThrows` | backend/README/dist/release/src/batchProcess/WinnowPro/TextChatHistory/GoogleMessagesChat/GoogleMessagesChat.js:41-58 | a bot turn whose `data` is `undefined` or `null` throws, and so does `handleGoogleMessage` on it |
| `WrapperChat.DispatchIgnoresCase` | backend/README/dist/release/src/batchProcess/WinnowPro/TextChatHistory/index.js:16-28 | a channel name and its upper-cased form select the same adapter and give the same history |
| `WrapperChat.UnknownChannelIsEmpty` | backend/README/dist/release/src/batchProcess/WinnowPro/TextChatHistory/index.js:29 | a name that upper-cases to none of the four channels gives "" |
| `WrapperChat.MissingNameThrows` | backend/README/dist/release/src/batchProcess/WinnowPro/TextChatHistory/index.js:16-17 | without a name (`null`, or left out so that the `String` default has no `toUpperCase`) the call throws, even for no turns |
| `WrapperChat.HistoryAppend` | backend/README/dist/release/src/batchProcess/WinnowPro/TextChatHistory/index.js:16-28 | on each of the four channels the history of `a + b` is that of `a` followed by that of `b` |
| `WrapperChat.WhatsAppHistoryOkExactly` | backend/README/dist/release/src/batchProcess/WinnowPro/TextChatHistory/index.js:26-27 | on the WhatsApp channel a history is produced exactly when every entry is printable there: not `null`, and USER or AGENT turns with `data` to read |
| `LeasingServices.PhoneNumber` | backend/README/dist/wc/ops/src/batchProcess/LeasingServices/index.js:352-364 | the reassigning `replace` sequence gives the phone number of the value |
| `LeasingServices.StrippedCount` | backend/README/dist/wc/ops/src/batchProcess/LeasingServices/index.js:354-357 | stripping removes one of each of "(", ")", " " and "-" that occurs, and nothing else |
| `LeasingServices.PhoneNumberInternational` | backend/README/dist/wc/ops/src/batchProcess/LeasingServices/index.js:352-364 | a number is returned exactly for a string, and it always starts with "+" or "00" |
| `LeasingServices.PhoneNumberKeepsDigits` | backend/README/dist/wc/ops/src/batchProcess/LeasingServices/index.js:358-362 | the result is the stripped number, behind "+1" exactly when the stripped number is not already international |
| `LeasingServices.CleanNumberUnchanged` | backend/README/dist/wc/ops/src/batchProcess/LeasingServices/index.js:352-364 | a number without punctuation only gains "+1", and an international one is returned as it is |
| `LeasingServices.ExtractMessage` | backend/README/dist/wc/ops/src/batchProcess/LeasingServices/index.js:1024-1033 | a non-empty message is one of the entries of the message object |
| `LeasingServices.ExtractDefaultsToEnglish` | backend/README/dist/wc/ops/src/batchProcess/LeasingServices/index.js:1025-1027 | a falsy language reads the English entry, and gives "" when there is none |
| `LeasingServices.ExtractFindsEntry` | backend/README/dist/wc/ops/src/batchProcess/LeasingServices/index.js:1028-1032 | a language with an entry gets that entry; one without an entry gets "" |
| `LeasingServices.FindLanguage` | backend/README/dist/wc/ops/src/batchProcess/LeasingServices/index.js:1041 | `find` returns the first entry whose source is the language, or none when no entry matches |
| `LeasingServices.ShortCodes` | backend/README/dist/wc/ops/src/batchProcess/LeasingServices/index.js:1039-1046 | English gives "en", Spanish gives "es", and every other language (or none) gives "en" |
| `LeasingServices.ReplaceDetailsInMsg` | backend/README/dist/wc/ops/src/batchProcess/LeasingServices/index.js:1054-1067 | the nested loops give the placeholder-by-placeholder, key-by-key substitution |
| `LeasingServices.NoPlaceholderUnchanged` | backend/README/dist/wc/ops/src/batchProcess/LeasingServices/index.js:1056-1057 | a message with no placeholder is returned unchanged |
| `LeasingServices.UnmatchedPlaceholderKept` | backend/README/dist/wc/ops/src/batchProcess/LeasingServices/index.js:1059-1063 | a placeholder that includes no key is left in the message |
| `LeasingServices.MatchedPlaceholderReplaced` | backend/README/dist/wc/ops/src/batchProcess/LeasingServices/index.js:1059-1063 | a placeholder that includes exactly one key has its first occurrence replaced by that key's value, with the value's `$` patterns expanded |
| `LeasingServices.DollarValueKeepsPlaceholder` | backend/README/dist/wc/ops/src/batchProcess/LeasingServices/index.js:1059-1063 | a key whose value is "$&" leaves its placeholder in the message |
| `JsText.DollarPatterns` | backend/README/dist/wc/ops/src/batchProcess/LeasingServices/index.js:1061 | `replace` with a string pattern expands the replacement: "$&" puts the match back, "$$" puts in one "$" |
| `LeasingServices.ReplaceDetailsAppend` | backend/README/dist/wc/ops/src/batchProcess/LeasingServices/index.js:1058-1064 | the placeholders are handled one after another, each on the result of the previous ones |
| `LeasingServices.CustomerValidExactly` | backend/README/dist/wc/ops/src/batchProcess/LeasingServices/index.js:1141-1193 | a customer row is valid exactly when its required columns are all filled |
| `LeasingServices.ResidenceValidExactly` | backend/README/dist/wc/ops/src/batchProcess/LeasingServices/index.js:1194-1213 | a residence row is valid exactly when AgencyName, apartmentOwnerEmail, managerEmail and supervisorEmail are filled |
| `LeasingServices.ValidatorsIgnoreOtherColumns` | backend/README/dist/wc/ops/src/batchProcess/LeasingServices/index.js:1141-1213 | changing a column neither validator reads changes neither verdict |
| `LeasingServices.GroupTicketsByEmail` | backend/README/dist/wc/ops/src/batchProcess/LeasingServices/index.js:907-910 | the groups are keyed by exactly the e-mails that occur, and each group is that e-mail's ticket ids in request order |
| `LeasingServices.TicketsForNonEmpty` | backend/README/dist/wc/ops/src/batchProcess/LeasingServices/index.js:907-910 | an e-mail some request uses has at least one ticket |
| `LeasingServices.TicketsForEmpty` | backend/README/dist/wc/ops/src/batchProcess/LeasingServices/index.js:907-910 | an e-mail that no request uses has no tickets |
| `LeasingServices.LeasingService.constructor` | backend/README/dist/wc/ops/src/batchProcess/LeasingServices/index.js:92 | the flow switch starts enabled |
| `LeasingServices.LeasingService.SetControlLPAFlow` | backend/README/dist/wc/ops/src/batchProcess/LeasingServices/index.js:99-103 | a boolean is stored; any other value leaves the switch as it was |
| `HelperFns.Decimal` | backend/README/src/batchProcess/helperFns.js:229 | the decimal form is non-empty and made of digits only |
| `HelperFns.DecimalRoundTrip` | backend/README/src/batchProcess/helperFns.js:229 | reading a number's decimal form back gives the number |
| `HelperFns.ZeroPadRoundTrip` | backend/README/src/batchProcess/helperFns.js:229 | a padded number reads back as the number; below 100 it is exactly two characters, never fewer |
| `HelperFns.ClampRange` | backend/README/src/batchProcess/helperFns.js:250-254 | the start is kept; an end row past (1 << 20) - 1 or an end column past (1 << 14) - 1 becomes that bound, and an end within the sheet is kept |
| `HelperFns.ClampIdempotent` | backend/README/src/batchProcess/helperFns.js:250-254 | clamping twice is clamping once, and a clamped range fits the sheet |
| `HelperFns.ShiftFormula` | backend/README/src/batchProcess/helperFns.js:275-282 | token by token: text is kept, a reference above `start_row` is kept, one into the deleted rows becomes `#REF!` with its lead character dropped, and one below moves up `nrows` unless its row is absolute |
| `HelperFns.RefFates` | backend/README/src/batchProcess/helperFns.js:275-282 | the same three fates for any one reference, whatever its lead character and column, absolute rows included |
| `HelperFns.RefErrorDropsLead` | backend/README/src/batchProcess/helperFns.js:256-281 | with row 3 deleted, `SUM(B3)` becomes `SUM#REF!)` and `A1+B3` becomes `A1#REF!` |
| `HelperFns.MoveRow` | backend/README/src/batchProcess/helperFns.js:297-303 | one row of the first loop: each cell in the range's columns moves up `nrows` with its formula shifted, and an absent one deletes its target |
| `HelperFns.ClearRow` | backend/README/src/batchProcess/helperFns.js:306-309 | one row of the tail loop: its cells in the range's columns are deleted and nothing else changes |
| `HelperFns.ShiftRowFormulas` | backend/README/src/batchProcess/helperFns.js:312-315 | one row of the last loop: the formulae of its cells are rewritten, and the cells stay where they are |
| `HelperFns.MoveRows` | backend/README/src/batchProcess/helperFns.js:296-304 | the first loop, row by row from `start_row + nrows` to the range's end |
| `HelperFns.ClearTail` | backend/README/src/batchProcess/helperFns.js:305-310 | the tail loop empties rows `e.r` down to `e.r - nrows + 1` in the range's columns |
| `HelperFns.ShiftRowsAbove` | backend/README/src/batchProcess/helperFns.js:311-316 | the last loop rewrites the formulae of the rows above `start_row` |
| `HelperFns.DeleteCells` | backend/README/src/batchProcess/helperFns.js:295-317 | after the three loops, each address holds the cell that the deletion specification gives |
| `HelperFns.UpdateMerges` | backend/README/src/batchProcess/helperFns.js:325-339 | the merge loop updates each merge and drops the deleted ones, keeping the order |
| `HelperFns.Splice` | backend/README/src/batchProcess/helperFns.js:342 | `splice(start_row, nrows)` removes the existing entries from `start_row` to `start_row + nrows - 1` and shifts the rest down |
| `HelperFns.DeleteRows` | backend/README/src/batchProcess/helperFns.js:265-343 | no worksheet is the error "operation expects a worksheet"; a sheet without `!ref` throws and is left as it was; otherwise a falsy count means 1 and a falsy start means 0, and the new cells, `!ref`, `!merges` and `!rows` are those of the specification |
| `HelperFns.CellsBelowMoveUp` | backend/README/src/batchProcess/helperFns.js:296-304 | a cell below the deleted rows, inside the range, ends up `nrows` rows higher |
| `HelperFns.TailCleared` | backend/README/src/batchProcess/helperFns.js:305-310 | the last `nrows` rows of the range end up empty |
| `HelperFns.OutsideRangeUntouched` | backend/README/src/batchProcess/helperFns.js:295-317 | cells outside the range's columns, and rows below both the range and `start_row`, are untouched |
| `HelperFns.ReferencesFollowCells` | backend/README/src/batchProcess/helperFns.js:275-304 | a relative reference to a moved cell is shifted by exactly the rows the cell moved |
| `HelperFns.TailClearsRowsAboveStart` | backend/README/src/batchProcess/helperFns.js:305-310 | as written, deleting past the end of the range also empties rows above `start_row` |
| `HelperFns.BoundedTailKeepsRowsAboveStart` | backend/README/src/batchProcess/helperFns.js:305-310 | with the tail loop bounded by `start_row`, no row above `start_row` changes except by formula rewriting |
| `HelperFns.BoundedTailAgreesBelowStart` | backend/README/src/batchProcess/helperFns.js:305-310 | the bounded tail loop agrees with the code as written at and below `start_row` |
| `HelperFns.MergeFates` | backend/README/src/batchProcess/helperFns.js:332-336 | a merge inside the deleted rows is dropped; one above them is kept; one straddling `start_row` is kept |
| `HelperFns.MergeBelowGrows` | backend/README/src/batchProcess/helperFns.js:332-334 | as written, a merge below the deleted rows keeps its end row, so it grows |
| `HelperFns.MovingEndKeepsHeight` | backend/README/src/batchProcess/helperFns.js:332-334 | with both of its rows moved, a merge below the deleted rows keeps its height and width |
| `HelperFns.MergesShrink` | backend/README/src/batchProcess/helperFns.js:325-339 | the merge list never grows, and keeps its length when no merge is deleted |
| `HelperFns.FormateColoumns` | backend/README/src/batchProcess/helperFns.js:345-361 | a sheet without `!ref` throws with its cells unchanged; otherwise the new cells are the formatted ones; the range, merges and rows are unchanged |
| `HelperFns.FormattingKeepsCells` | backend/README/src/batchProcess/helperFns.js:351-360 | no cell is added or removed and values and formulae are kept; the header row and other columns are untouched |
| `HelperFns.FormattingIdempotent` | backend/README/src/batchProcess/helperFns.js:351-360 | formatting an already formatted cell again leaves it as it is |
| `BatchFlags.SetConfig` | backend/README/dist/wc/ops/src/batchProcess/index.js:256-260 | the in-place `map` over the entries gives the edited entries |
| `BatchFlags.FlagRegistry.AddBatchFlagForCorporate` | backend/README/dist/wc/ops/src/batchProcess/index.js:114-166 | the new collection and the reply are those of the whole add request, validation first |
| `BatchFlags.FlagRegistry.DeleteBatchFlagForCorporate` | backend/README/dist/wc/ops/src/batchProcess/index.js:176-218 | the same for the delete request |
| `BatchFlags.FlagRegistry.EditFlagConfig` | backend/README/dist/wc/ops/src/batchProcess/index.js:225-268 | the same for the edit request |
| `BatchFlags.UnknownFlagRefused` | backend/README/dist/wc/ops/src/batchProcess/index.js:128-133 | a flag that is not configured is refused by add, delete and edit with "Please provide a valid flag.", and nothing changes |
| `BatchFlags.InvalidFieldsRefused` | backend/README/dist/wc/ops/src/batchProcess/index.js:116-126 | the validators answer first, field by field (corporate, flag, config), with their own message and nothing changed; an empty flag is refused by them even if "" were a configured flag; the delete ignores the config |
| `BatchFlags.AddRequestKeepsInvariants` | backend/README/dist/wc/ops/src/batchProcess/index.js:114-166 | a whole add keeps only configured, distinct flags per corporate, and every corporate and flag name non-empty |
| `BatchFlags.DeleteRequestKeepsInvariants` | backend/README/dist/wc/ops/src/batchProcess/index.js:176-218 | the same for a whole delete |
| `BatchFlags.EditRequestKeepsInvariants` | backend/README/dist/wc/ops/src/batchProcess/index.js:225-268 | the same for a whole edit |
| `BatchFlags.AddOutcomes` | backend/README/dist/wc/ops/src/batchProcess/index.js:139-161 | a new corporate gets exactly the one entry; a flag already enabled is refused with nothing changed; otherwise the entry is appended; other corporates are untouched |
| `BatchFlags.WithoutFlagKeepsOthers` | backend/README/dist/wc/ops/src/batchProcess/index.js:207-211 | the delete keeps each entry of another flag exactly as many times as it occurred and no entry of the deleted flag; a list without the flag is unchanged |
| `BatchFlags.WithoutFlagAppend` | backend/README/dist/wc/ops/src/batchProcess/index.js:207-211 | the filter works entry by entry: filtering `a + b` is filtering `a`, then `b` |
| `BatchFlags.WithoutFlagKeepsPlace` | backend/README/dist/wc/ops/src/batchProcess/index.js:207-211 | a kept entry stays after what preceded it and before what followed it |
| `BatchFlags.WithoutFlagKeepsDistinct` | backend/README/dist/wc/ops/src/batchProcess/index.js:207-211 | the delete keeps distinct flags distinct |
| `BatchFlags.AddKeepsWellFormed` | backend/README/dist/wc/ops/src/batchProcess/index.js:128-161 | after an add, every corporate still has only configured flags, each at most once |
| `BatchFlags.DeleteKeepsWellFormed` | backend/README/dist/wc/ops/src/batchProcess/index.js:189-213 | the same after a delete |
| `BatchFlags.EditKeepsWellFormed` | backend/README/dist/wc/ops/src/batchProcess/index.js:239-263 | the same after an edit |
| `BatchFlags.EditKeepsFlags` | backend/README/dist/wc/ops/src/batchProcess/index.js:253-263 | an edit keeps the flags and their order, and gives the edited flag the new config |
| `BatchFlags.WithoutAppended` | backend/README/dist/wc/ops/src/batchProcess/index.js:155-161 | deleting a flag appended last, that the list did not already have, drops just that entry |
| `BatchFlags.AddThenDelete` | backend/README/dist/wc/ops/src/batchProcess/index.js:139-213 | adding a flag a corporate lacks and then deleting it gives the collection back |
| `BatchFlags.AddThenDeleteLeavesEmptyRecord` | backend/README/dist/wc/ops/src/batchProcess/index.js:139-213 | for a corporate with no record, add then delete leaves an empty record rather than none |
| `BatchFlags.ListingAfterAdd` | backend/README/dist/wc/ops/src/batchProcess/index.js:89-103 | listing lists a just-added flag, and fails with "No Flags found for corporate …" when there is no record |
| `AuthService.IsAuthenticationRequiredURL` | backend/README/src/authservice.js:58-70 | true exactly when the URL contains some route of some business cloud, or contains "/admin/" |
| `AuthService.CredentialsSplit` | backend/README/src/authservice.js:32 | the username is the text before the first colon; the password is the text between the first and second colons, and undefined without a colon |
| `AuthService.FirstUser` | backend/README/src/authservice.js:81-84 | the first configured user whose name and password both match, or none when no user matches |
| `AuthService.FilterUsers` | backend/README/src/authservice.js:136-152 | a stored user with exactly these credentials, or none when there is no such user |
| `AuthService.ScanRoutes` | backend/README/src/authservice.js:90-97 | the cloud loop gives the route-scan verdict |
| `AuthService.Authenticate` | backend/README/src/authservice.js:73-115 | the user loop and the cloud loops give the `Authenticate` verdict |
| `AuthService.ValidateAPIs` | backend/README/src/authservice.js:11-56 | the checks and lookups give the `validateAPIs` verdict |
| `AuthService.OpenRequestsPass` | backend/README/src/authservice.js:17-24 | with authentication off, or on an unprotected URL, every request passes before any header check |
| `AuthService.MissingHeaderRejected` | backend/README/src/authservice.js:25-27 | on a protected URL, a missing header or one without "Basic " gets 401 'Missing Authorization Header' |
| `AuthService.AdminRecordPasses` | backend/README/src/authservice.js:76-79 | a stored ADMIN record always passes |
| `AuthService.RouteScanDecides` | backend/README/src/authservice.js:90-99 | over known clouds the scan never throws, passes exactly when the URL contains one cloud's routes, and otherwise gives 'Un Authorized' |
| `AuthService.FirstUserDecides` | backend/README/src/authservice.js:81-100 | the first matching configured user decides: SERVER passes exactly when the URL contains one of its clouds' routes, and any other type is refused |
| `AuthService.AccessListDecides` | backend/README/src/authservice.js:103-114 | with no configured match, a stored record passes exactly when the URL contains one of its ACCESS clouds' routes, and no record is refused |
| `AuthService.DefaultAdminDecision` | backend/README/src/authservice.js:186-213 | with no stored match, the default admin is valid exactly when its credentials match, its type is ADMIN and no ADMIN is stored; then it is an ADMIN with empty access and page lists |
| `AuthService.StoredUserValid` | backend/README/src/authservice.js:182-185 | a stored match is valid, with its type, access and pages |
| `ServerConfig.ServerConfig.LoadConfig` | backend/README/src/serverconfig.js:8-16 | the configuration becomes the parsed text, or `{}` when the text does not parse |
| `ServerConfig.CollectionNames` | backend/README/src/serverconfig.js:129-131 | the collection names are always truthy |
| `ServerConfig.EmptyConfigDefaults` | backend/README/src/serverconfig.js:30-40 | on `{}` (what unparseable text loads): port 8081, "localhost", no LPA entry, `{}` collection names, and the prefix read throws |
| `ServerConfig.OwnershipNotTruthiness` | backend/README/src/serverconfig.js:18-31 | a configured falsy port is returned as is, but falsy collection names fall back to `{}` |
| `ServerConfig.LPAapisPresence` | backend/README/src/serverconfig.js:100-104 | the LPA entry is returned exactly when ClientApis is an object owning one |
| `ServerConfig.PrefixDefaults` | backend/README/src/serverconfig.js:126-128 | the prefix is the LPA entry's truthy value, or "" when it is missing or falsy; a missing or `null` LPA entry throws |

## Left out

- Logging, the file system, MongoDB connections and HTTP responses.
- Request locations: the validators look for each field in the query, the body and the route parameters, while the handlers read the body. The model takes one value per field, as if every field came in the body; a field sent only in the query passes validation and is then read as absent by the handler, which the model does not capture.
- `CorporateFlags`: its one validator (`notEmpty`) is modelled on a text corporate, where an absent one reads as empty; a query value that is an array or an object is not modelled.
- Flag collection layout: `BatchFlags` keeps one record per corporate in a map. The delete-then-insert of a record and its position in the collection are not modelled. Replies do not all use the same keys. Most carry `success`/`message`, but some use `status` instead of `success`: the edit's replies for a missing corporate (`status`/`error`) and for a flag the corporate lacks (`status`/`message`), the failure reply of `getAllFlags` (`status`/`message`), and both refusals of `corporateFlags` (`status`/`error`). The model keeps only each reply's truth value and its text.
- Errors the handlers catch: the `catch` branches of the flag requests (database failures) are not modelled.
- JavaScript coercions:
  - an object in a template literal is always "[object Object]";
  - numbers are integers;
  - `toUpperCase` is modelled on ASCII letters only.
- `imageArrayType` is modelled by its outcome: it always throws, because its `for…in` reaches the node's `type` key.
- Chat history channel names are compared after ASCII upper-casing only.
- Holes in a sparse turn list: the Google adapter loops with `for…in`, which skips them, while the other adapters read them as `undefined` and throw. The model has no holes; a `NullTurn` entry is a `null` (or explicitly `undefined`) entry, which every adapter reads and throws on.
- Google rich cards: a `null` entry inside `cardContents` or inside a `suggestions` list also throws in the source; the model takes every entry of those lists to be an object.
- `replaceDetailsInMsg`:
  - the `<%…>` regular expression is replaced by the list of placeholders it would match, given in message order;
  - the keys of the sentence object are given in their enumeration order.
- Formula references are given already split into tokens; the `crefregex` parsing and A1 encoding are not modelled.
- `delete_rows`:
  - the dense-array branch is not modelled;
  - merges are ranges, so the throw on a merge of unexpected type is not modelled;
  - worksheet cells are values, so aliasing between cell objects is not modelled.
- `HelperFns.ZeroPad`: negative and non-integer numbers are not modelled.
- `GroupTickets`: the key order of the resulting object is not modelled; each group's order is.
- Base64 decoding and JSON parsing are parameters.
- `AuthService`: the database errors of `filterUsers`/`getUsers`, and a business cloud without a `routes` property, are not modelled. A configured user whose `business_clouds` is missing throws.
- `ServerConfig.Get`: the own properties of a top-level JSON array or string are not modelled, `length` included; such a configuration reads as having no keys, so `Owns` and `Get` find no `length` where the source's `hasOwnProperty` does.
- The remaining `ServerConfig` getters (`isHttps`, `mongoDBName`, the mail settings, `getLeasingApis`, `getWinnowProApis`, `getFlags` and the rest) have the same shape as `ServerPort` and `GetLPAapis` and are not repeated.
- Date and time helpers (`getUTCFormattedDate`, `getPastDateTime`) depend on the clock and the local time zone; only `zeroPad` is modelled.

## Findings

| source | as written | input that shows it | evidently intended | confidence | as-written member | corrected member |
|---|---|---|---|---|---|---|
| backend/README/src/batchProcess/helperFns.js:305-310 | the tail loop clears rows `e.r` down to `e.r - nrows + 1` without stopping at `start_row` | a cell at row 3, range ending at row 5, `start_row` 5, `nrows` 3: rows 3 and 4, above the deleted rows, are emptied | rows above `start_row` are kept | not executed | `HelperFns.TailClearsRowsAboveStart` | `HelperFns.BoundedTailKeepsRowsAboveStart` |
| backend/README/src/batchProcess/helperFns.js:332-334 | a merge at or below `start_row` moves its start row up but keeps its end row | merge rows 10..12, `start_row` 2, `nrows` 2: it becomes rows 8..12 | a merge below the deleted rows moves up whole and keeps its height | not executed | `HelperFns.MergeBelowGrows` | `HelperFns.MovingEndKeepsHeight` |
