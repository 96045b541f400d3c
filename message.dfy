/** The Mattermost webhook payload of hooks/logrus/message.go: a message
    built from a log entry and its two encoders, the string-concatenating
    `_marshalJSON` and the buffer-based `MarshalJSON`. */
module Messages {
  import opened Wrappers
  import opened Buffers
  import opened Keys
  import opened LogEntry
  import opened Attachments

  const ChannelKey: Bytes := "\"channel\""
  const UsernameKey: Bytes := "\"username\""
  const AttachmentsKey: Bytes := "\"attachments\""
  /** The punctuation around the members _marshalJSON writes. */
  const ColonQuote: Bytes := [':', '"']
  const QuoteComma: Bytes := ['"', ',']
  const ColonBracket: Bytes := [':', '[']
  const CloseBracket: Bytes := [']']

  /** What the encoders read of a message: everything but the buffer and
      the cached data keys. */
  datatype Payload = Payload(
    channel: Bytes,
    username: Bytes,
    hostname: Bytes,
    attc: Option<Attachment>,
    level: Level,
    data: map<Bytes, Bytes>,
    msg: Bytes)

  /** The username written: the username, or the hostname when it is empty. */
  function UserName(p: Payload): Bytes {
    if |p.username| > 0 then p.username else p.hostname
  }

  /** One ` key=value` token: the key as it is, the value escaped. */
  function Token(k: Bytes, v: Bytes): Bytes {
    [' '] + k + ['='] + Escape(v)
  }

  /** The tokens of the first `n` keys of `ks`. */
  function Tokens(data: map<Bytes, Bytes>, ks: seq<Bytes>, n: nat): Bytes
    requires n <= |ks|
    requires forall k :: k in ks ==> k in data
  {
    if n == 0 then [] else Tokens(data, ks, n - 1) + Token(ks[n - 1], data[ks[n - 1]])
  }

  /** The closing ` msg=<escaped message>`, only for a non-empty message. */
  function MsgToken(msg: Bytes): Bytes {
    if |msg| > 0 then Token("msg", msg) else []
  }

  /** The text line: the level icon, a token per data key in ascending
      key order, then the message token. */
  function Text(level: Level, data: map<Bytes, Bytes>, msg: Bytes): Bytes {
    var ks := SortedKeys(data.Keys);
    Icon(level) + Tokens(data, ks, |ks|) + MsgToken(msg)
  }

  /** The `"text"` member, whose text line is escaped once, when the
      line is built. */
  function TextMember(p: Payload): Bytes {
    TextKey + ColonQuote + Text(p.level, p.data, p.msg) + Quote
  }

  /** _marshalJSON, up to the body: `{`, the channel member when the
      channel is non-empty, and the username member, all unescaped. */
  function ConcatHead(p: Payload): Bytes {
    ['{'] + ConcatChannel(p) + ConcatUser(p)
  }

  function ConcatChannel(p: Payload): Bytes {
    if |p.channel| > 0 then ChannelKey + ColonQuote + p.channel + QuoteComma else []
  }

  function ConcatUser(p: Payload): Bytes {
    UsernameKey + ColonQuote + UserName(p) + QuoteComma
  }

  /** _marshalJSON's body: the attachment's encoding inside square
      brackets, unescaped, or the text member. */
  function ConcatBody(p: Payload): Bytes {
    match p.attc
    case Some(a) => AttachmentsKey + ColonBracket + AttachmentJSON(a) + CloseBracket
    case None => TextMember(p)
  }

  /** The output of _marshalJSON. */
  function ConcatJSON(p: Payload): Bytes {
    ConcatHead(p) + ConcatBody(p) + ['}']
  }

  /** MarshalJSON, up to the body: the same members, with the channel
      and the username escaped. */
  function BufferHead(p: Payload): Bytes {
    ['{'] + BufferChannel(p) + BufferUser(p)
  }

  function BufferChannel(p: Payload): Bytes {
    if |p.channel| > 0 then KV(ChannelKey, p.channel, ':', '"', '"') + [','] else []
  }

  function BufferUser(p: Payload): Bytes {
    KV(UsernameKey, UserName(p), ':', '"', '"') + [',']
  }

  /** MarshalJSON's body: the attachment's encoding escaped inside
      square brackets, or the same text member as _marshalJSON's. */
  function BufferBody(p: Payload): Bytes {
    match p.attc
    case Some(a) => KV(AttachmentsKey, AttachmentJSON(a), ':', '[', ']')
    case None => TextMember(p)
  }

  /** The output of MarshalJSON. */
  function BufferJSON(p: Payload): Bytes {
    BufferHead(p) + BufferBody(p) + ['}']
  }

  /** A space and a bare pair written with `=` make a token. */
  lemma TokenKV(k: Bytes, v: Bytes)
    ensures [' '] + KV(k, v, '=', 0 as char, 0 as char) == Token(k, v)
  {
  }

  lemma Regroup(a: Bytes, b: Bytes, c: Bytes)
    ensures a + b + c == a + (b + c)
  {
  }

  /** The escaping loops of getText: `out` with the escaping of `v`
      appended byte by byte. */
  method AppendEscaped(out: Bytes, v: Bytes) returns (r: Bytes)
    ensures r == out + Escape(v)
  {
    r := out;
    for i := 0 to |v|
      invariant r == out + Escape(v[..i])
    {
      var c := v[i];
      if c == '\\' {
        r := r + ['\\'] + ['\\'];
      } else if c == '"' {
        r := r + ['\\'] + ['"'];
      } else {
        r := r + [c];
      }
      EscapeSnoc(v, i);
    }
    assert v[..|v|] == v;
  }

  /** The token loop body of getText: a space, the key, `=`, and the
      value escaped byte by byte. */
  method AppendToken(out: Bytes, k: Bytes, v: Bytes) returns (r: Bytes)
    ensures r == out + Token(k, v)
  {
    r := out + [' '] + k + ['='];
    r := AppendEscaped(r, v);
  }

  /** The text line is the line of the data tokens, followed by the
      message token. */
  lemma TextLayout(level: Level, data: map<Bytes, Bytes>, msg: Bytes, keys: seq<Bytes>, line: Bytes)
    requires keys == SortedKeys(data.Keys)
    requires line == Icon(level) + Tokens(data, keys, |keys|)
    ensures line + MsgToken(msg) == Text(level, data, msg)
  {
  }

  lemma TokensStep(start: Bytes, data: map<Bytes, Bytes>, keys: seq<Bytes>, i: nat, b0: Bytes, b1: Bytes)
    requires i < |keys| && forall k :: k in keys ==> k in data
    requires b0 == start + Tokens(data, keys, i)
    requires b1 == b0 + Token(keys[i], data[keys[i]])
    ensures b1 == start + Tokens(data, keys, i + 1)
  {
  }

  /** The loop of writeEntryData: for each key, a space and the bare
      pair `key=value` written by writeKV, whose bytes are bufWriteKV's. */
  method WriteDataTokens(buf: Buffer, data: map<Bytes, Bytes>, keys: seq<Bytes>)
    requires forall k :: k in keys ==> k in data
    modifies buf
    ensures buf.bytes == old(buf.bytes) + Tokens(data, keys, |keys|)
  {
    ghost var start := buf.bytes;
    for i := 0 to |keys|
      invariant buf.bytes == start + Tokens(data, keys, i)
    {
      var k := keys[i];
      ghost var b0 := buf.bytes;
      buf.WriteByte(' ');
      BufWriteKV(buf, k, data[k], '=', 0 as char, 0 as char);
      TokenKV(k, data[k]);
      assert buf.bytes == b0 + Token(k, data[k]);
      TokensStep(start, data, keys, i, b0, buf.bytes);
    }
  }

  /** The pieces writeText appends, in order, make the text member. */
  lemma TextMemberLayout(p: Payload, keys: seq<Bytes>, b0: Bytes, b1: Bytes, b2: Bytes, b3: Bytes, b4: Bytes)
    requires keys == SortedKeys(p.data.Keys)
    requires b1 == b0 + (TextKey + ColonQuote) + Icon(p.level)
    requires b2 == b1 + Tokens(p.data, keys, |keys|)
    requires b3 == b2 + MsgToken(p.msg)
    requires b4 == b3 + ['"']
    ensures b4 == b0 + TextMember(p)
  {
    var line := Icon(p.level) + Tokens(p.data, keys, |keys|);
    TextLayout(p.level, p.data, p.msg, keys, line);
    Chain(b0, b1, b2, b3, b4, TextKey + ColonQuote, Icon(p.level), Tokens(p.data, keys, |keys|), MsgToken(p.msg));
  }

  /** Five appends, regrouped as the text member groups them. */
  lemma Chain(b0: Bytes, b1: Bytes, b2: Bytes, b3: Bytes, b4: Bytes, key: Bytes, icon: Bytes, tokens: Bytes, msg: Bytes)
    requires b1 == b0 + key + icon
    requires b2 == b1 + tokens
    requires b3 == b2 + msg
    requires b4 == b3 + ['"']
    ensures b4 == b0 + (key + (icon + tokens + msg) + Quote)
  {
  }

  /** The keys of a data map, collected in the map's (arbitrary)
      iteration order and then sorted with sort.Strings. */
  method SortedDataKeys(data: map<Bytes, Bytes>) returns (keys: seq<Bytes>)
    ensures keys == SortedKeys(data.Keys)
  {
    var collected: seq<Bytes> := [];
    var rest := data.Keys;
    while rest != {}
      invariant rest <= data.Keys
      invariant forall k :: k in collected <==> k in data && k !in rest
      decreases |rest|
    {
      var k :| k in rest;
      collected := collected + [k];
      rest := rest - {k};
    }
    // sort.Strings: the collected keys in ascending order.
    keys := SortedKeys(set k | k in collected);
    assert (set k | k in collected) == data.Keys;
  }

  /** A message to Mattermost: the target channel, the user to post as,
      the host, the attachment, and the entry's level, data and message. */
  class Message {
    const buf: Buffer
    var channel: Bytes
    var username: Bytes
    var hostname: Bytes
    var attc: Option<Attachment>
    var entryData: map<Bytes, Bytes>
    var entryLevel: Level
    var entryMsg: Bytes
    var dataKeys: seq<Bytes>

    /** The fields the encoders read. */
    function State(): Payload
      reads this
    {
      Payload(channel, username, hostname, attc, entryLevel, entryData, entryMsg)
    }

    /** NewMessage: the attachment is built from the default one and the
      entry, and the entry's data, level and message are kept. The
      channel, username and hostname parameters are ignored: those
      fields stay empty. */
    constructor (channel: Bytes, username: Bytes, hostname: Bytes, defAttc: Option<Attachment>, entry: Entry)
      ensures this.channel == [] && this.username == [] && this.hostname == []
      ensures attc.None? <==> defAttc.None?
      ensures attc.Some? ==> var n := attc.value;
        n.color == Color(entry.level) && n.fields == FieldsOf(entry.data)
        && n.text == Icon(entry.level) + [' '] + entry.message
      ensures attc == if defAttc.None? then None else Some(ForEntry(defAttc.value, entry))
      ensures entryData == entry.data && entryLevel == entry.level && entryMsg == entry.message
      ensures dataKeys == [] && buf.bytes == [] && fresh(buf)
    {
      var a := NewAttachment(defAttc, Some(entry));
      buf := new Buffer();
      this.channel := [];
      this.username := [];
      this.hostname := [];
      attc := a;
      entryData := entry.data;
      entryLevel := entry.level;
      entryMsg := entry.message;
      dataKeys := [];
    }

    /** generateDataKeys: the data keys in ascending order. */
    method GenerateDataKeys()
      modifies this
      ensures dataKeys == SortedKeys(entryData.Keys)
      ensures State() == old(State())
    {
      dataKeys := SortedDataKeys(entryData);
    }

    /** getText. Its receiver is a copy of the message, so the keys it
      generates are not kept. */
    method GetText() returns (str: Bytes)
      ensures str == Text(entryLevel, entryData, entryMsg)
    {
      var keys := SortedDataKeys(entryData);
      assert forall k :: k in keys ==> k in entryData;
      var out := Icon(entryLevel);
      for i := 0 to |keys|
        invariant out == Icon(entryLevel) + Tokens(entryData, keys, i)
      {
        var k := keys[i];
        out := AppendToken(out, k, entryData[k]);
        Regroup(Icon(entryLevel), Tokens(entryData, keys, i), Token(k, entryData[k]));
      }
      TextLayout(entryLevel, entryData, entryMsg, keys, out);
      if |entryMsg| > 0 {
        out := AppendToken(out, "msg", entryMsg);
      } else {
        assert out + MsgToken(entryMsg) == out;
      }
      str := out;
    }

    /** _marshalJSON, up to the body. */
    method ConcatHeadBytes() returns (str: Bytes)
      ensures str == ConcatHead(State())
    {
      str := ['{'];
      if |channel| > 0 {
        str := str + ChannelKey + ColonQuote + channel + QuoteComma;
      }
      assert str == ['{'] + ConcatChannel(State());
      if |username| > 0 {
        str := str + (UsernameKey + ColonQuote + username + QuoteComma);
      } else {
        str := str + (UsernameKey + ColonQuote + hostname + QuoteComma);
      }
    }

    /** _marshalJSON's body, with the attachment encoder's error. */
    method ConcatBodyBytes() returns (body: Bytes, err: Option<string>)
      ensures body == ConcatBody(State())
      ensures err == None
    {
      if attc.Some? {
        var bAttc, aerr := Attachments.MarshalJSON(attc.value);
        if aerr.Some? {
          return [], aerr;
        }
        body := AttachmentsKey + ColonBracket + bAttc + CloseBracket;
      } else {
        var text := GetText();
        body := TextKey + ColonQuote + text + Quote;
      }
      err := None;
    }

    /** _marshalJSON: the payload by string concatenation, nothing
      escaped but the text line. The attachment encoder's error, always
      nil, is passed on. */
    method MarshalJSONConcat() returns (out: Bytes, err: Option<string>)
      ensures out == ConcatJSON(State())
      ensures err == None
    {
      var str := ConcatHeadBytes();
      var body, berr := ConcatBodyBytes();
      if berr.Some? {
        return [], berr;
      }
      out := str + body + ['}'];
      err := None;
    }

    /** writeKV: the same bytes as bufWriteKV, written to the message's
      own buffer. */
    method WriteKV(k: Bytes, v: Bytes, sep: Byte, l: Byte, r: Byte)
      modifies buf
      ensures buf.bytes == old(buf.bytes) + KV(k, v, sep, l, r)
    {
      BufWriteKV(buf, k, v, sep, l, r);
    }

    /** writeEntryData: the data keys are generated, then a space and a
      bare `key=value` pair are written for each, in ascending key order. */
    method WriteEntryData()
      modifies this, buf
      ensures dataKeys == SortedKeys(entryData.Keys)
      ensures State() == old(State())
      ensures buf.bytes == old(buf.bytes) + Tokens(entryData, dataKeys, |dataKeys|)
    {
      GenerateDataKeys();
      assert forall k :: k in dataKeys ==> k in entryData;
      WriteDataTokens(buf, entryData, dataKeys);
    }

    /** writeEntryMsg: ` msg=<escaped message>` when the message is
      non-empty. */
    method WriteEntryMsg()
      modifies buf
      ensures buf.bytes == old(buf.bytes) + MsgToken(entryMsg)
    {
      if |entryMsg| == 0 {
        return;
      }
      buf.WriteByte(' ');
      WriteKV("msg", entryMsg, '=', 0 as char, 0 as char);
      TokenKV("msg", entryMsg);
    }

    /** writeText: the text member, its line escaped once. */
    method WriteText()
      modifies this, buf
      ensures dataKeys == SortedKeys(entryData.Keys)
      ensures State() == old(State())
      ensures buf.bytes == old(buf.bytes) + TextMember(State())
    {
      ghost var b0 := buf.bytes;
      buf.WriteString(TextKey + ColonQuote);
      buf.WriteString(Icon(entryLevel));
      ghost var b1 := buf.bytes;
      WriteEntryData();
      ghost var b2 := buf.bytes;
      WriteEntryMsg();
      ghost var b3 := buf.bytes;
      buf.WriteByte('"');
      TextMemberLayout(State(), dataKeys, b0, b1, b2, b3, buf.bytes);
    }

    /** The channel member, when the channel is non-empty. */
    method WriteChannel()
      modifies buf
      ensures buf.bytes == old(buf.bytes) + BufferChannel(State())
    {
      if |channel| > 0 {
        WriteKV(ChannelKey, channel, ':', '"', '"');
        buf.WriteByte(',');
      }
    }

    /** The username member: the username, or the hostname when it is
      empty. */
    method WriteUser()
      modifies buf
      ensures buf.bytes == old(buf.bytes) + BufferUser(State())
    {
      ghost var b0 := buf.bytes;
      if |username| > 0 {
        WriteKV(UsernameKey, username, ':', '"', '"');
      } else {
        WriteKV(UsernameKey, hostname, ':', '"', '"');
      }
      buf.WriteByte(',');
      Regroup(b0, KV(UsernameKey, UserName(State()), ':', '"', '"'), [',']);
    }

    /** MarshalJSON, up to the body: the buffer is reset, then receives
      `{`, the channel member when the channel is non-empty, and the
      username member, their values escaped. */
    method WriteHead()
      modifies buf
      ensures buf.bytes == BufferHead(State())
    {
      buf.Reset();
      buf.WriteByte('{');
      assert buf.bytes == ['{'];
      WriteChannel();
      assert buf.bytes == ['{'] + BufferChannel(State());
      WriteUser();
    }

    /** MarshalJSON's body: the attachment's encoding, escaped, inside
      square brackets, or the text member; with the attachment encoder's
      error. */
    method WriteBody() returns (err: Option<string>)
      modifies this, buf
      ensures err == None
      ensures buf.bytes == old(buf.bytes) + BufferBody(State())
      ensures State() == old(State())
      ensures attc.None? ==> dataKeys == SortedKeys(entryData.Keys)
      ensures attc.Some? ==> dataKeys == old(dataKeys)
    {
      if attc.Some? {
        var bAttc, aerr := Attachments.MarshalJSON(attc.value);
        if aerr.Some? {
          return aerr;
        }
        WriteKV(AttachmentsKey, bAttc, ':', '[', ']');
      } else {
        WriteText();
      }
      err := None;
    }

    /** MarshalJSON: the buffer is reset, then receives the payload with
      every value escaped, the attachment's encoding included; the
      buffer's bytes are returned. */
    method MarshalJSON() returns (out: Bytes, err: Option<string>)
      modifies this, buf
      ensures out == BufferJSON(State()) && buf.bytes == out
      ensures err == None
      ensures State() == old(State())
      ensures attc.None? ==> dataKeys == SortedKeys(entryData.Keys)
      ensures attc.Some? ==> dataKeys == old(dataKeys)
    {
      WriteHead();
      var berr := WriteBody();
      if berr.Some? {
        return [], berr;
      }
      buf.WriteByte('}');
      out := buf.bytes;
      err := None;
    }
  }

  /** MarshalJSON resets the buffer before writing, so marshalling an
      unchanged message again gives the same bytes. */
  method MarshalTwice(m: Message) returns (first: Bytes, second: Bytes)
    modifies m, m.buf
    ensures first == second
    ensures first == BufferJSON(old(m.State()))
  {
    var e1, e2;
    first, e1 := m.MarshalJSON();
    second, e2 := m.MarshalJSON();
  }
}
