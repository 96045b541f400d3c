/** How the two encoders of hooks/logrus/message.go relate: the buffer
    encoder escapes the channel, the username and the attachment's
    encoding, the concatenating one writes them as they are, and both
    write the same text member. */
module Encoders {
  import opened Wrappers
  import opened Buffers
  import opened Keys
  import opened LogEntry
  import opened Attachments
  import opened Messages

  /** The bytes the buffer encoder's escaping adds: one backslash per
      `\` or `"` in the channel, the username written and the
      attachment's encoding. */
  function Added(p: Payload): nat {
    CountSpecial(p.channel) + CountSpecial(UserName(p))
    + (match p.attc case Some(a) => CountSpecial(AttachmentJSON(a)) case None => 0)
  }

  /** A quoted member, escaped, is longer by one byte per special byte. */
  lemma QuotedLength(k: Bytes, v: Bytes)
    ensures |KV(k, v, ':', '"', '"')| == |k + [':', '"'] + v + ['"']| + CountSpecial(v)
  {
    EscapeLength(v);
  }

  lemma ChannelLength(p: Payload)
    ensures |BufferChannel(p)| == |ConcatChannel(p)| + CountSpecial(p.channel)
  {
    if |p.channel| > 0 {
      QuotedLength(ChannelKey, p.channel);
    }
  }

  lemma UserLength(p: Payload)
    ensures |BufferUser(p)| == |ConcatUser(p)| + CountSpecial(UserName(p))
  {
    QuotedLength(UsernameKey, UserName(p));
  }

  lemma BodyLength(p: Payload)
    ensures |BufferBody(p)| == |ConcatBody(p)|
      + (match p.attc case Some(a) => CountSpecial(AttachmentJSON(a)) case None => 0)
  {
    if p.attc.Some? {
      EscapeLength(AttachmentJSON(p.attc.value));
    }
  }

  /** The buffer encoder's output is longer than the concatenating
      encoder's by exactly the backslashes its escaping adds. */
  lemma EncoderLengths(p: Payload)
    ensures |BufferJSON(p)| == |ConcatJSON(p)| + Added(p)
  {
    ChannelLength(p);
    UserLength(p);
    BodyLength(p);
  }

  lemma ChannelAgree(p: Payload)
    requires NoSpecial(p.channel)
    ensures BufferChannel(p) == ConcatChannel(p)
  {
    KVQuoted(ChannelKey, p.channel, ':');
  }

  lemma UserAgree(p: Payload)
    requires NoSpecial(UserName(p))
    ensures BufferUser(p) == ConcatUser(p)
  {
    KVQuoted(UsernameKey, UserName(p), ':');
  }

  lemma BodyAgree(p: Payload)
    requires p.attc.Some? ==> NoSpecial(AttachmentJSON(p.attc.value))
    ensures BufferBody(p) == ConcatBody(p)
  {
    if p.attc.Some? {
      Bracketed(AttachmentsKey, AttachmentJSON(p.attc.value));
    }
  }

  lemma Bracketed(k: Bytes, v: Bytes)
    requires NoSpecial(v)
    ensures KV(k, v, ':', '[', ']') == k + [':', '['] + v + [']']
  {
    EscapeIdentity(v);
    assert Delim('[') == ['['] && Delim(']') == [']'];
  }

  /** The two encoders write the same bytes exactly when nothing needs
      escaping: the channel and the username written hold no `\` or
      `"`, and the attachment, if any, has no member (a member always
      opens with a quote). */
  lemma EncodersAgreeIff(p: Payload)
    ensures BufferJSON(p) == ConcatJSON(p)
      <==> NoSpecial(p.channel) && NoSpecial(UserName(p))
           && (p.attc.Some? ==> Blank(p.attc.value))
  {
    if p.attc.Some? {
      AttachmentNoSpecialIffBlank(p.attc.value);
    }
    if BufferJSON(p) == ConcatJSON(p) {
      EncoderLengths(p);
      CountSpecialZero(p.channel);
      CountSpecialZero(UserName(p));
      if p.attc.Some? {
        CountSpecialZero(AttachmentJSON(p.attc.value));
      }
    } else if NoSpecial(p.channel) && NoSpecial(UserName(p)) && (p.attc.Some? ==> Blank(p.attc.value)) {
      ChannelAgree(p);
      UserAgree(p);
      BodyAgree(p);
    }
  }

  lemma EscapePlain(a: Bytes, rest: Bytes)
    requires NoSpecial(a)
    ensures Escape(a + rest) == a + Escape(rest)
  {
    EscapeAppend(a, rest);
    EscapeIdentity(a);
  }

  lemma EscapeOne(c: Byte, rest: Bytes)
    requires Special(c)
    ensures Escape([c] + rest) == ['\\', c] + Escape(rest)
  {
    EscapeAppend([c], rest);
    assert Escape([c]) == EscapeByte(c) + Escape([]);
  }

  /** The tail both test values share, `\"JSON\""}`, in chunks that
      are either free of special bytes or one special byte. */
  const QuotedTail: Bytes := "\\" + ("\"" + ("JSON" + ("\\" + ("\"" + ("\"" + "}")))))

  /** The tail with its quotes and backslashes escaped once. */
  const EscapedTail: Bytes := "\\\\" + ("\\\"" + ("JSON" + ("\\\\" + ("\\\"" + ("\\\"" + "}")))))

  lemma QuotedTailEscaped()
    ensures Escape(QuotedTail) == EscapedTail
  {
    var q, b: Byte := '"', '\\';
    var t6: Bytes := "}";
    EscapePlain(t6, []);
    var t5 := [q] + t6;
    EscapeOne(q, t6);
    var t4 := [q] + t5;
    EscapeOne(q, t5);
    var t3 := [b] + t4;
    EscapeOne(b, t4);
    var json: Bytes := "JSON";
    var t2 := json + t3;
    EscapePlain(json, t3);
    var t1 := [q] + t2;
    EscapeOne(q, t2);
    EscapeOne(b, t1);
    assert QuotedTail == [b] + t1;
  }

  /** A one-member object `{"k":"pfx<tail>` of the test values. */
  function TestObject(k: Bytes, pfx: Bytes): Bytes {
    "{" + ("\"" + (k + ("\"" + (":" + ("\"" + (pfx + QuotedTail))))))
  }

  lemma TestObjectEscaped(k: Bytes, pfx: Bytes)
    requires NoSpecial(k) && NoSpecial(pfx)
    ensures Escape(TestObject(k, pfx))
      == "{" + ("\\\"" + (k + ("\\\"" + (":" + ("\\\"" + (pfx + Escape(QuotedTail)))))))
  {
    var t6 := pfx + QuotedTail;
    EscapePlain(pfx, QuotedTail);
    var t5 := "\"" + t6;
    EscapeOne('"', t6);
    var t4 := ":" + t5;
    EscapePlain(":", t5);
    var t3 := "\"" + t4;
    EscapeOne('"', t4);
    var t2 := k + t3;
    EscapePlain(k, t3);
    var t1 := "\"" + t2;
    EscapeOne('"', t2);
    EscapePlain("{", t1);
  }

  /** The test values with their quotes and backslashes escaped once. */
  const JsonEscaped: Bytes := "{" + ("\\\"" + ("msg" + ("\\\"" + (":" + ("\\\"" + ("field with " + EscapedTail))))))

  const MsgEscaped: Bytes := "{" + ("\\\"" + ("message" + ("\\\"" + (":" + ("\\\"" + ("this is " + EscapedTail))))))

  /** The `json` value and the message of the test entry. */
  const JsonValue: Bytes := TestObject("msg", "field with ")

  const TestMsg: Bytes := TestObject("message", "this is ")

  lemma JsonValueEscaped()
    ensures Escape(JsonValue) == JsonEscaped
  {
    QuotedTailEscaped();
    TestObjectEscaped("msg", "field with ");
  }

  lemma MsgValueEscaped()
    ensures Escape(TestMsg) == MsgEscaped
  {
    QuotedTailEscaped();
    TestObjectEscaped("message", "this is ");
  }

  /** The other data values of the test entry, as `%+v` renders them:
      the number 1, a string, and a struct with two fields. */
  const NumberValue: Bytes := "1"
  const StringValue: Bytes := "a string"
  const StructValue: Bytes := "{n:10 s:string in struct}"

  lemma PlainValues()
    ensures NoSpecial(NumberValue) && NoSpecial(StringValue) && NoSpecial(StructValue)
  {
  }

  lemma PlainValuesEscaped()
    ensures Escape(NumberValue) == NumberValue
    ensures Escape(StringValue) == StringValue
    ensures Escape(StructValue) == StructValue
  {
    PlainValues();
    EscapeIdentity(NumberValue);
    EscapeIdentity(StringValue);
    EscapeIdentity(StructValue);
  }

  /** The entry data of the test message. */
  const TestData: map<Bytes, Bytes> := map[
    "json" := JsonValue,
    "number" := NumberValue,
    "string" := StringValue,
    "struct" := StructValue]

  lemma LessTransitive(a: Bytes, b: Bytes, c: Bytes)
    requires Less(a, b) && Less(b, c)
    ensures Less(a, c)
  {
    LessEqTransitive(a, b, c);
    if a == c {
      LessEqAntisymmetric(a, b);
    }
  }

  /** Four keys in ascending order are the sorted keys of a map holding
      them, and its tokens are theirs in that order. */
  lemma FourSorted(data: map<Bytes, Bytes>, k0: Bytes, k1: Bytes, k2: Bytes, k3: Bytes,
                   v0: Bytes, v1: Bytes, v2: Bytes, v3: Bytes)
    requires Less(k0, k1) && Less(k1, k2) && Less(k2, k3)
    requires data == map[k0 := v0, k1 := v1, k2 := v2, k3 := v3]
    ensures SortedKeys(data.Keys) == [k0, k1, k2, k3]
    ensures Tokens(data, [k0, k1, k2, k3], 4)
      == Token(k0, v0) + Token(k1, v1) + Token(k2, v2) + Token(k3, v3)
  {
    LessTransitive(k0, k1, k2);
    LessTransitive(k1, k2, k3);
    LessTransitive(k0, k2, k3);
    var ks := [k0, k1, k2, k3];
    assert StrictlyAscending(ks);
    SortedKeysCharacterized(data.Keys, ks);
    assert data[k0] == v0 && data[k1] == v1 && data[k2] == v2 && data[k3] == v3;
    assert Tokens(data, ks, 1) == Token(k0, v0);
    assert Tokens(data, ks, 2) == Token(k0, v0) + Token(k1, v1);
    assert Tokens(data, ks, 3) == Token(k0, v0) + Token(k1, v1) + Token(k2, v2);
  }

  /** The data keys of the test message sort as json < number < string
      < struct. */
  lemma TestKeysSorted()
    ensures SortedKeys(TestData.Keys) == ["json", "number", "string", "struct"]
  {
    assert Less("json", "number") && Less("number", "string") && Less("string", "struct");
    FourSorted(TestData, "json", "number", "string", "struct",
      JsonValue, NumberValue, StringValue, StructValue);
  }

  lemma TestTokens()
    ensures Tokens(TestData, ["json", "number", "string", "struct"], 4)
      == Token("json", JsonValue) + Token("number", NumberValue) + Token("string", StringValue)
         + Token("struct", StructValue)
  {
    assert Less("json", "number") && Less("number", "string") && Less("string", "struct");
    FourSorted(TestData, "json", "number", "string", "struct",
      JsonValue, NumberValue, StringValue, StructValue);
  }

  /** The tokens of the test data, each value escaped once. */
  lemma TestTokensRendered()
    ensures Token("json", JsonValue) + Token("number", NumberValue) + Token("string", StringValue)
        + Token("struct", StructValue)
      == (" " + "json" + "=" + JsonEscaped) + (" " + "number" + "=" + NumberValue)
         + (" " + "string" + "=" + StringValue) + (" " + "struct" + "=" + StructValue)
  {
    JsonValueEscaped();
    PlainValuesEscaped();
  }

  /** The data tokens of the test message, in key order. */
  lemma TestDataTokens()
    ensures Tokens(TestData, ["json", "number", "string", "struct"], 4)
      == (" " + "json" + "=" + JsonEscaped) + (" " + "number" + "=" + NumberValue)
         + (" " + "string" + "=" + StringValue) + (" " + "struct" + "=" + StructValue)
  {
    TestTokens();
    TestTokensRendered();
  }

  lemma TestMsgToken()
    ensures MsgToken(TestMsg) == " " + "msg" + "=" + MsgEscaped
  {
    MsgValueEscaped();
  }

  lemma TestTextParts()
    ensures Text(Info, TestData, TestMsg)
      == Icon(Info) + Tokens(TestData, ["json", "number", "string", "struct"], 4) + MsgToken(TestMsg)
  {
    TestKeysSorted();
  }

  /** The text line of the test message: the info icon, the data
      tokens in key order, then the message token, values escaped once. */
  lemma TestText()
    ensures Text(Info, TestData, TestMsg)
      == Icon(Info)
         + ((" " + "json" + "=" + JsonEscaped) + (" " + "number" + "=" + NumberValue)
            + (" " + "string" + "=" + StringValue) + (" " + "struct" + "=" + StructValue))
         + (" " + "msg" + "=" + MsgEscaped)
  {
    TestTextParts();
    TestDataTokens();
    TestMsgToken();
  }

  /** The icon of the info level. */
  lemma InfoIcon()
    ensures Icon(Info) == ":white_circle:"
  {
  }

  /** The layout of _marshalJSON's output for a message with a channel,
      a username and no attachment. */
  lemma ConcatTextLayout(p: Payload)
    requires p.attc.None? && |p.channel| > 0 && |p.username| > 0
    ensures ConcatJSON(p)
      == ("{" + ("\"channel\"" + ":\"" + p.channel + "\",") + ("\"username\"" + ":\"" + p.username + "\","))
         + ("\"text\"" + ":\"" + Text(p.level, p.data, p.msg) + "\"") + "}"
  {
  }

  /** The message of hooks/logrus/message_test.go. */
  const TestPayload := Payload("test", "testing", "localhost", None, Info, TestData, TestMsg)

  /** expMsgJSON, in the chunks the encoders write. */
  const ExpMsgJSON: string :=
    ("{" + ("\"channel\"" + ":\"" + "test" + "\",") + ("\"username\"" + ":\"" + "testing" + "\","))
    + ("\"text\"" + ":\""
       + (Icon(Info)
          + ((" " + "json" + "=" + JsonEscaped) + (" " + "number" + "=" + NumberValue)
             + (" " + "string" + "=" + StringValue) + (" " + "struct" + "=" + StructValue))
          + (" " + "msg" + "=" + MsgEscaped))
       + "\"")
    + "}"

  /** _marshalJSON writes expMsgJSON for the test message. */
  lemma ConcatGolden()
    ensures ConcatJSON(TestPayload) == ExpMsgJSON
  {
    TestText();
    ConcatTextLayout(TestPayload);
  }

  /** MarshalJSON writes the same bytes: nothing in the test message's
      channel or username needs escaping, and it has no attachment. */
  lemma MessageGolden()
    ensures ConcatJSON(TestPayload) == ExpMsgJSON
    ensures BufferJSON(TestPayload) == ExpMsgJSON
  {
    ConcatGolden();
    TestNamesPlain();
    EncodersAgreeIff(TestPayload);
  }

  lemma TestNamesPlain()
    ensures NoSpecial(TestPayload.channel) && NoSpecial(UserName(TestPayload))
  {
  }
}
