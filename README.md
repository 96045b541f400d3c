# mattermost-integration, modelled in Dafny

This project models two parts of shuLhan/mattermost-integration.

**The logrus hook for Mattermost (`hooks/logrus`).**
- **The escaping writer `bufWriteKV`.** It writes a key, a separator, an optional left delimiter, the value with every `\` and `"` preceded by a backslash, and an optional right delimiter.
- **Field and Fields encoders.** A field is written as `{}` unless both its title and its value are set. A list is written as the kept fields separated by commas. The model reproduces the list encoder's separator flag exactly, including the trailing comma it leaves when the list ends with empty fields after a written one.
- **Attachment.** Its encoder writes members in a fixed key order, each followed by a comma, then trims one trailing comma. `NewAttachment` copies the default attachment. `SetFields` turns entry data into short fields in ascending key order.
- **The two message encoders.**
  - `_marshalJSON` concatenates strings and escapes only the text line.
  - `MarshalJSON` writes into the message's buffer and escapes every value. That includes the attachment's own encoding.
- **The hook.**
  - The level filter of `NewHook`.
  - The single shared hook: the first `NewHook` creates it, and later calls overwrite four of its settings.
  - `Fire`, which hands one message per entry to the sender.

**The buildbot side (`buildbot`).**
- `getChanges` turns a Mattermost `/build <repo> [<branch> [<revision>]]` slash command into one buildbot change, after checking options, token, channel, parameters and command, in that order.
- `formatter` turns a build into a status post.

Byte strings are `seq<Byte>`, where `Byte` is a `char` below 256. A Go `bytes.Buffer` is the class `Buffers.Buffer`, whose `bytes` field the writes append to. Every operation that writes into a buffer or updates an object is a `method` with `modifies`. Each is specified by a function of the inputs (`FieldJSON`, `FieldsJSON`, `AttachmentJSON`, `Text`, `ConcatJSON`, `BufferJSON`, `LevelsFrom`). The lemmas state what the source promises about those functions.

The model follows the code where its comments or tests suggest otherwise:
- **The text line is escaped once.** Both message encoders escape the data values and the message exactly once. `_marshalJSON` does it in `getText`; `MarshalJSON` does it through `writeKV`. The golden `expMsgJSON` of `message_test.go` agrees.
- **`NewMessage` ignores its `channel`, `username` and `hostname` parameters.** The message's fields stay empty, and the model keeps them empty.
- **`NewHook`'s level loop is written `for _ lvl := range logrus.AllLevels`.** Go rejects that line. The model takes the loop the line evidently means, over every level of `logrus.AllLevels` in order.

## Model

| member | source | states |
|---|---|---|
| Buffers.EscapeAppend | hooks/logrus/buffer.go:24-51 | the escaping loop works byte by byte: escaping a concatenation is the concatenation of the escapings |
| Buffers.EscapeLength | hooks/logrus/buffer.go:24-51 | the escaped value is longer than the value by exactly one byte per `\` or `"` |
| Buffers.EscapeIdentity | hooks/logrus/buffer.go:24-51 | escaping leaves a value unchanged if and only if it holds no `\` and no `"` |
| Buffers.UnescapeEscape | hooks/logrus/buffer.go:24-51 | round trip: dropping each escaping backslash gives the original value back |
| Buffers.EscapeInjective | hooks/logrus/buffer.go:24-51 | two values with the same escaping are equal |
| Buffers.EscapeQuoteUnique | hooks/logrus/buffer.go:24-51 | escaped text followed by a closing quote parses one way only: the value and what follows the quote are both determined |
| Buffers.Delim | hooks/logrus/buffer.go:18-23 | a non-zero delimiter is written as that one byte, and a zero delimiter writes nothing |
| Buffers.KVRecoversValue | hooks/logrus/buffer.go:7-58 | the appended bytes start with the key and the separator, and unescaping what lies between the delimiters gives back the value |
| Buffers.KVQuoted | hooks/logrus/buffer.go:7-58 | a quoted value without `\` or `"` is written verbatim between its quotes |
| Buffers.KVBare | hooks/logrus/buffer.go:7-58 | an undelimited value without `\` or `"` is written verbatim after the separator |
| Buffers.BufWriteKV | hooks/logrus/buffer.go:7-58 | the buffer is extended by the key, the separator, the non-zero delimiters and the escaped value, and by nothing else |
| Buffers.WriteDelim | hooks/logrus/buffer.go:18-23 | a delimiter byte is appended only when it is non-zero |
| Buffers.WriteEscaped | hooks/logrus/buffer.go:24-51 | the loop appends the escaping of the whole value, in order |
| FieldCodec.FieldJSON | hooks/logrus/field.go:23-49 | a field is written between braces, and more than `{}` is written exactly when both title and value are non-empty |
| FieldCodec.MarshalJSON | hooks/logrus/field.go:23-49 | Field.MarshalJSON returns the field's wire form, and its error is always nil |
| FieldCodec.WriteShort | hooks/logrus/field.go:33-37 | the `"short"` pair carries the bare literal `true` or `false` |
| FieldCodec.FieldJSONVerbatim | hooks/logrus/field.go:33-42 | a set field whose title and value need no escaping is written as `{"short":b,"title":"t","value":"v"}` |
| FieldCodec.FieldJSONInjective | hooks/logrus/field.go:29-45 | two set fields with the same wire form are the same field: short flag, title and value are all recoverable |
| FieldCodec.FieldGolden | hooks/logrus/field_test.go:18-58 | the five expected outputs of the field test |
| FieldsCodec.FieldsJSON | hooks/logrus/fields.go:20-44 | the list is written between square brackets |
| FieldsCodec.EmittedIsJoin | hooks/logrus/fields.go:26-39 | the loop writes the kept encodings separated by single commas, plus one trailing comma exactly when a kept field is followed only by empty ones |
| FieldsCodec.WrittenIsFilter | hooks/logrus/fields.go:33-38 | the encodings written are exactly the kept ones, those longer than `{}` |
| FieldsCodec.WrittenEmptyIff | hooks/logrus/fields.go:33-38 | nothing is written exactly when no encoding is kept |
| FieldsCodec.KeptIffPresent | hooks/logrus/fields.go:33 | an encoding is kept exactly when its field has both title and value |
| FieldsCodec.WriteComma | hooks/logrus/fields.go:27-29 | a raised separator flag writes one comma, a lowered one nothing |
| FieldsCodec.WritePiece | hooks/logrus/fields.go:33-38 | a kept encoding is written and raises the flag; `{}` is dropped and lowers it |
| FieldsCodec.WriteNext | hooks/logrus/fields.go:26-39 | one loop visit extends the written bytes and the flag to the next field |
| FieldsCodec.MarshalJSON | hooks/logrus/fields.go:20-44 | Fields.MarshalJSON returns the list's wire form, and its error is always nil |
| FieldsCodec.AllAbsentIsEmpty | hooks/logrus/fields.go:20-44 | a list of empty fields, the empty list included, is written `[]` |
| FieldsCodec.SinglePresent | hooks/logrus/fields.go:26-39 | one set field is written alone between the brackets |
| FieldsCodec.MiddleAbsent | hooks/logrus/fields.go:26-39 | an empty field between two set ones is skipped, and one comma separates the two |
| FieldsCodec.TrailingAbsent | hooks/logrus/fields.go:26-39 | an empty field after the last set one leaves a dangling comma: the output ends in `,]` |
| FieldsCodec.FieldsGoldenOne | hooks/logrus/fields_test.go:22-31 | the expected output of the one-field test |
| FieldsCodec.FieldsGoldenSkip | hooks/logrus/fields_test.go:32-48 | the expected output of the empty-field-in-the-middle test |
| Keys.SortedKeys | hooks/logrus/attachment.go:170-174 | the collected and sorted keys ascend strictly and are exactly the map's keys |
| Keys.SortedKeysLength | hooks/logrus/attachment.go:170-174 | each key appears once: there are as many sorted keys as keys |
| Keys.SortedKeysCharacterized | hooks/logrus/attachment.go:174 | sort.Strings' result is the only strictly ascending listing of the key set, so it does not depend on map iteration order |
| Attachments.Member | hooks/logrus/attachment.go:105-109 | a string member is written only when its value is non-empty |
| Attachments.FieldsMember | hooks/logrus/attachment.go:115-124 | the fields member is written only when the list is non-empty |
| Attachments.TrimComma | hooks/logrus/attachment.go:154 | bytes.TrimSuffix drops exactly the last byte when it is a comma, and otherwise returns the bytes unchanged |
| Attachments.TerminatedIsJoin | hooks/logrus/attachment.go:101-150 | members each followed by a comma are the comma-joined members plus one trailing comma |
| Attachments.TrimTerminated | hooks/logrus/attachment.go:152-155 | trimming the last comma and closing the brace gives the members comma-joined inside braces |
| Attachments.WriteMember | hooks/logrus/attachment.go:105-109 | a non-empty string member and its comma are appended; an empty one appends nothing |
| Attachments.MarshalAuthor | hooks/logrus/attachment.go:76-92 | the author icon, link and name members are appended in that order |
| Attachments.WriteFields | hooks/logrus/attachment.go:115-124 | a non-empty list is appended as `"fields":` and its encoding and a comma; the error is nil |
| Attachments.MarshalHead | hooks/logrus/attachment.go:101-114 | author members, colour and fallback are appended in that order |
| Attachments.MarshalTail | hooks/logrus/attachment.go:125-150 | image URL, pretext, text, title and title link are appended in that order |
| Attachments.Close | hooks/logrus/attachment.go:152-155 | the trimmed buffer plus `}` is the members comma-joined inside braces |
| Attachments.MarshalJSON | hooks/logrus/attachment.go:97-158 | Attachment.MarshalJSON returns the non-empty members in key order, comma-separated, inside braces; the error is nil |
| Attachments.EmptyObjectIffBlank | hooks/logrus/attachment.go:97-158 | an attachment is written `{}` if and only if no string is set and the list is empty |
| Attachments.MembersQuoted | hooks/logrus/attachment.go:101-150 | every member written begins with a `"` |
| Attachments.AttachmentNoSpecialIffBlank | hooks/logrus/attachment.go:97-158 | the encoding contains no `\` or `"` if and only if the attachment is blank |
| Attachments.AbsentFieldsStillWritten | hooks/logrus/attachment.go:115-124 | a non-empty list of empty fields is still written, as `"fields":[]` |
| Attachments.LinkAndFieldsJSON | hooks/logrus/attachment.go:82-124 | with only an author link and fields, the link member comes first, then the fields member |
| Attachments.LinkOnlyJSON | hooks/logrus/attachment.go:82-86 | with only an author link, the output is that single member in braces |
| Attachments.AttachmentGolden | hooks/logrus/attachment_test.go:17-29 | the expected outputs for the empty attachment and for the author link alone |
| Attachments.GoldenFieldList | hooks/logrus/attachment_test.go:35-51 | the field list of the third test skips its empty middle field |
| Attachments.AttachmentFieldsGolden | hooks/logrus/attachment_test.go:30-51 | the expected output of the with-fields test |
| Attachments.FieldsOf | hooks/logrus/attachment.go:163-183 | one short field per data key, title the key and value its data |
| Attachments.FieldsOfOrdered | hooks/logrus/attachment.go:170-182 | every data key has a field and the titles ascend strictly, so no key has two |
| Attachments.FieldsFor | hooks/logrus/attachment.go:176-182 | the loop builds one short field per key, in the keys' order |
| Attachments.SetFields | hooks/logrus/attachment.go:163-183 | only the fields change, to one field per key in ascending key order; empty data gives an empty list |
| Attachments.NewAttachment | hooks/logrus/attachment.go:50-74 | no default means no attachment. Otherwise author, image, pretext and title strings are copied; fallback stays empty; an entry sets its level's colour, its data as fields and the text `<icon> <message>`; for an entry the result is the default with exactly those four fields replaced |
| Attachments.EntryAttachmentNotEmpty | hooks/logrus/attachment.go:67-71 | an attachment made for an entry is never written `{}` |
| Messages.TokenKV | hooks/logrus/message.go:203-210 | a space followed by a bare `=` pair is one ` key=value` token with the value escaped |
| Messages.AppendEscaped | hooks/logrus/message.go:74-86 | getText's escaping loop appends the escaping of the value |
| Messages.AppendToken | hooks/logrus/message.go:68-86 | each visit of getText's key loop appends one token |
| Messages.TextLayout | hooks/logrus/message.go:61-109 | the icon and the tokens of the keys in ascending order, then the message token, make the text line |
| Messages.WriteDataTokens | hooks/logrus/message.go:202-214 | writeEntryData's loop appends one token per key, in key order |
| Messages.TextMemberLayout | hooks/logrus/message.go:237-261 | the pieces writeText appends make up the `"text"` member |
| Messages.SortedDataKeys | hooks/logrus/message.go:46-54 | keys collected in any iteration order and then sorted are the sorted key set |
| Messages.Message.constructor | hooks/logrus/message.go:33-44 | no default gives no attachment; otherwise the attachment is the default's author, image, pretext and title strings with an empty fallback and the entry's colour, fields and text. Channel, username and hostname stay empty, and the entry's data, level and message are kept |
| Messages.Message.GenerateDataKeys | hooks/logrus/message.go:46-54 | the cached keys become the sorted data keys; nothing the encoders read changes |
| Messages.Message.GetText | hooks/logrus/message.go:61-109 | the text line is the icon, a token per data key in ascending order, and ` msg=<message>` when the message is non-empty |
| Messages.Message.ConcatHeadBytes | hooks/logrus/message.go:115-125 | `{`, the channel member if the channel is set, then the username member, which falls back to the hostname |
| Messages.Message.ConcatBodyBytes | hooks/logrus/message.go:127-138 | the attachment's encoding inside `"attachments":[...]`, or else the text line as `"text"`; the error is nil |
| Messages.Message.MarshalJSONConcat | hooks/logrus/message.go:114-144 | _marshalJSON returns head, body and `}`; the error is nil |
| Messages.Message.WriteKV | hooks/logrus/message.go:146-197 | writeKV appends to the message's buffer exactly what bufWriteKV appends |
| Messages.Message.WriteEntryData | hooks/logrus/message.go:199-217 | the keys are regenerated, and one token per key is appended in ascending key order |
| Messages.Message.WriteEntryMsg | hooks/logrus/message.go:219-235 | ` msg=<escaped message>` is appended only for a non-empty message |
| Messages.Message.WriteText | hooks/logrus/message.go:237-261 | the `"text"` member is appended with its line escaped once |
| Messages.Message.WriteChannel | hooks/logrus/message.go:274-283 | the escaped channel member and a comma are appended when the channel is set |
| Messages.Message.WriteUser | hooks/logrus/message.go:284-295 | the escaped username member, or the hostname when the username is empty, and a comma are appended |
| Messages.Message.WriteHead | hooks/logrus/message.go:267-295 | after the reset the buffer holds `{`, the channel member and the username member |
| Messages.Message.WriteBody | hooks/logrus/message.go:297-312 | the attachment's encoding, escaped, inside `[...]`, or else the text member is appended; the error is nil |
| Messages.Message.MarshalJSON | hooks/logrus/message.go:266-318 | the returned bytes are the buffer's whole content, the payload with every value escaped; nothing the encoders read changes |
| Messages.MarshalTwice | hooks/logrus/message.go:266-269 | because the buffer is reset first, encoding an unchanged message twice gives the same bytes |
| Encoders.EncoderLengths | hooks/logrus/message.go:114-318 | MarshalJSON's output is longer than _marshalJSON's by one byte per `\` or `"` in the channel, the username written and the attachment's encoding |
| Encoders.EncodersAgreeIff | hooks/logrus/message.go:114-318 | the two encoders write the same bytes if and only if channel and username need no escaping and any attachment is blank |
| Encoders.TestKeysSorted | hooks/logrus/message_test.go:18-29 | the test data's keys sort as json, number, string, struct |
| Encoders.TestText | hooks/logrus/message_test.go:9-31 | the text line of the test message, each value escaped once |
| Encoders.ConcatGolden | hooks/logrus/message_test.go:34-48 | _marshalJSON writes expMsgJSON for the test message |
| Encoders.MessageGolden | hooks/logrus/message_test.go:50-64 | MarshalJSON writes the same expMsgJSON |
| Hooks.LevelsFromRun | hooks/logrus/mmhooklogrus.go:66-71 | the filter keeps exactly the levels at or below `minLevel` in severity, ascending, each once, `7 - minLevel` of them |
| Hooks.FilterLevels | hooks/logrus/mmhooklogrus.go:66-71 | the loop appends, in order, every level of AllLevels that is at least `minLevel` |
| Hooks.Hook.constructor | hooks/logrus/mmhooklogrus.go:76-87 | a new hook holds the given settings, host name and levels, and nothing has been sent |
| Hooks.Hook.Levels | hooks/logrus/mmhooklogrus.go:109-111 | Levels returns the filtered levels |
| Hooks.Hook.Fire | hooks/logrus/mmhooklogrus.go:116-127 | a nil entry sends nothing. An entry adds exactly one new message to the end of the outbox, carrying the entry's data, level and message, the attachment NewMessage builds from the hook's default and the entry, no data keys yet and an empty buffer. Settings never change and the error is nil |
| Hooks.Registry.NewHook | hooks/logrus/mmhooklogrus.go:65-104 | the first call creates the shared hook with the filtered levels and the OS host name, or HOSTNAME when that fails. Later calls overwrite only endpoint, channel, username and attachment on the same hook. Either way the shared hook is returned |
| Changes.FirstOrNothing | buildbot/mattermost.py:15-23 | a list gives its first element and an empty list raises; anything else is returned as it is |
| Changes.SplitSpec | buildbot/mattermost.py:95 | the words of str.split() are non-empty and free of whitespace, and together are the text's non-whitespace characters in order |
| Changes.SplitEmptyIff | buildbot/mattermost.py:95-98 | the text has no parameter exactly when it is all whitespace |
| Changes.DoBuild | buildbot/mattermost.py:25-57 | one change: branch defaults to master and revision to empty; project `mattermost_build_<repo>_<branch>` and repository base URL plus repo; fixed author, category, comments and revlink; source None |
| Changes.GetChanges | buildbot/mattermost.py:59-69 | missing options, a missing token option and a missing repo_base_url option each raise their ValueError, in that order |
| Changes.GetChangesOkIff | buildbot/mattermost.py:59-103 | a request is accepted exactly when options are complete, token and channel match, the command is `/build` and the text has a word; the result is then do_build of the words |
| Changes.TokenRefused | buildbot/mattermost.py:77-80 | a token argument different from the option is refused with `Invalid token!` |
| Changes.ChannelRefused | buildbot/mattermost.py:85-89 | a channel different from the option is refused with a message naming both |
| Changes.ParametersCheckedFirst | buildbot/mattermost.py:94-101 | a text without words is refused with `Missing parameters...` before the command is examined |
| Changes.CommandRefused | buildbot/mattermost.py:100-101 | with parameters present, any command but `/build` is refused with `Wrong command line!` |
| Reporter.Formatter | buildbot/mattermost_reporter.py:86-111 | the post goes to channel `ci` as `buildbot`, its text is status, phase, builder, `at` branch, `:` url and a newline |
| Reporter.FormatterStatus | buildbot/mattermost_reporter.py:95-109 | the opening of the text says passed, failed or running, and each opening belongs to exactly one of those cases |
| Reporter.FormatterEndsWithUrl | buildbot/mattermost_reporter.py:104-109 | the text ends in the build's url and a newline |
| Reporter.FormatterSingleLine | buildbot/mattermost_reporter.py:104-109 | when builder name, branch and url hold no newline, the final newline is the text's only one: the post is a single line |

## Left out

- I/O and concurrency: logrus.go's sending goroutine, `Start` and `_running`, the HTTP post, and `_hookLocker`. The getters are plain reads of the fields.
- The channel send `_chanMsg <- msg` in `Fire`: the message is appended to the hook's `outbox` field instead.
- `os.Hostname` and `os.Getenv("HOSTNAME")` are parameters of `NewHook`, the first one optional.
- `fmt.Sprintf("%+v", v)`: entry data values are taken as already rendered bytes.
- `sort.Strings`: its result is specified, as the unique strictly ascending listing of the keys, not computed by a sorting algorithm.
- Errors of `bytes.Buffer` writes: Go's in-memory buffer never returns one, so the writes have no error path.
- Map iteration order in `generateDataKeys`: an arbitrary choice of the next key. Only the sorted result is observable.
- Levels outside logrus's seven: `Level` admits only 0 to 6, since indexing `_iconsLevel` or `_colorsLevel` with an entry level outside that range panics.
- Hooks.Registry.NewHook: `minLevel` is a `Level` too, so the case `minLevel >= 7` is not modelled. Go accepts it there and the filter then keeps no level, without a panic.
- The Twisted request object: only its `args` map is modelled, each argument a single string or a list.
- Exceptions `getChanges` does not raise on purpose are `Crash` failures: an empty argument list (IndexError) and a missing text (AttributeError).
- `str.split()`: whitespace is the six ASCII whitespace bytes of a Python 2 byte string; Unicode whitespace is not modelled.
- `formatter`: only the fields it reads of the build dictionary are modelled. `%s` formatting is written out as concatenation.
- Attachments.SetFields: the pointer receiver is modelled as a function from attachment to attachment, so aliasing of the attachment is not captured.
- Hooks.Registry.NewHook: the default attachment is held by value. Go stores the caller's `*Attachment` pointer and every `Fire` reads it again, so a change the caller later makes through that pointer reaches later messages; the model does not see such a change.
- Messages.Message.MarshalJSON: returns a copy of the buffer's bytes. In Go, `msg.buf.Bytes()` shares memory with the buffer, so a later MarshalJSON on the same message, which resets and rewrites the buffer, changes bytes an earlier caller still holds. That aliasing is not modelled. logrus.go's sender re-encodes the message with `json.Marshal` and does not keep the earlier bytes.
