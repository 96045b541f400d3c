/** A Mattermost message attachment (hooks/logrus/attachment.go): its
    construction from a default attachment and a log entry, and its wire
    encoder. */
module Attachments {
  import opened Wrappers
  import opened Buffers
  import opened Keys
  import opened LogEntry
  import FieldCodec
  import opened FieldsCodec

  /** _colorsLevel: the attachment colour of each level. */
  const ColorsLevel: seq<Bytes> := [
    "#FF0000", "#CC0000", "#990000", "#9F6000", "#FFFFFF", "#000000", "#000000"
  ]

  function Color(l: Level): Bytes {
    ColorsLevel[l]
  }

  datatype Attachment = Attachment(
    authorIcon: Bytes,
    authorLink: Bytes,
    authorName: Bytes,
    color: Bytes,
    fallback: Bytes,
    fields: Fields,
    imageURL: Bytes,
    pretext: Bytes,
    text: Bytes,
    title: Bytes,
    titleLink: Bytes)

  /** The zero value, `Attachment{}`. */
  const Empty := Attachment("", "", "", "", "", [], "", "", "", "", "")

  const AuthorIconKey: Bytes := "\"author_icon\""
  const AuthorLinkKey: Bytes := "\"author_link\""
  const AuthorNameKey: Bytes := "\"author_name\""
  const ColorKey: Bytes := "\"color\""
  const FallbackKey: Bytes := "\"fallback\""
  const FieldsKey: Bytes := "\"fields\":"
  const ImageURLKey: Bytes := "\"image_url\""
  const PretextKey: Bytes := "\"pretext\""
  const TextKey: Bytes := "\"text\""
  const TitleKey: Bytes := "\"title\""
  const TitleLinkKey: Bytes := "\"title_link\""

  /** A string member: `"key":"<escaped value>"`, present only when the
      value is non-empty. */
  function Member(key: Bytes, v: Bytes): (ms: seq<Bytes>)
    ensures |ms| == if |v| > 0 then 1 else 0
  {
    if |v| > 0 then [KV(key, v, ':', '"', '"')] else []
  }

  /** The fields member: the list's own encoding after `"fields":`,
      unescaped, present whenever the list is non-empty. */
  function FieldsMember(fs: Fields): (ms: seq<Bytes>)
    ensures |ms| == if |fs| > 0 then 1 else 0
  {
    if |fs| > 0 then [FieldsKey + FieldsJSON(fs)] else []
  }

  function AuthorMembers(a: Attachment): seq<Bytes> {
    Member(AuthorIconKey, a.authorIcon)
    + Member(AuthorLinkKey, a.authorLink)
    + Member(AuthorNameKey, a.authorName)
  }

  /** The members an attachment writes, in the fixed key order. */
  function Members(a: Attachment): seq<Bytes> {
    AuthorMembers(a)
    + Member(ColorKey, a.color)
    + Member(FallbackKey, a.fallback)
    + FieldsMember(a.fields)
    + Member(ImageURLKey, a.imageURL)
    + Member(PretextKey, a.pretext)
    + Member(TextKey, a.text)
    + Member(TitleKey, a.title)
    + Member(TitleLinkKey, a.titleLink)
  }

  /** The wire form: the members, comma-separated, inside braces. */
  function AttachmentJSON(a: Attachment): Bytes {
    Enclose('{', Join(Members(a)), '}')
  }

  /** What the buffer receives: each member followed by a comma. */
  function Terminated(ms: seq<Bytes>): Bytes {
    if ms == [] then []
    else Terminated(ms[..|ms| - 1]) + ms[|ms| - 1] + [',']
  }

  lemma TerminatedSnoc(ms: seq<Bytes>, x: Bytes)
    ensures Terminated(ms + [x]) == Terminated(ms) + x + [',']
  {
    assert (ms + [x])[..|ms|] == ms;
  }

  /** A non-empty member list is written as its join plus one comma. */
  lemma {:induction false} TerminatedIsJoin(ms: seq<Bytes>)
    ensures ms != [] ==> Terminated(ms) == Join(ms) + [',']
  {
    if |ms| > 1 {
      TerminatedIsJoin(ms[..|ms| - 1]);
    }
  }

  /** `bytes.TrimSuffix(s, ",")`: drops one comma if `s` ends with one. */
  function TrimComma(s: Bytes): (r: Bytes)
    ensures r == s || s == r + [',']
    ensures |s| > 0 && s[|s| - 1] == ',' ==> s == r + [',']
    ensures !(|s| > 0 && s[|s| - 1] == ',') ==> r == s
  {
    if |s| > 0 && s[|s| - 1] == ',' then s[..|s| - 1] else s
  }

  /** Trimming one comma from `{` and the terminated members, then
      closing the brace, gives the members joined inside braces: the
      last member's comma, and only that one, goes. */
  lemma TrimTerminated(ms: seq<Bytes>)
    ensures TrimComma(['{'] + Terminated(ms)) + ['}'] == ['{'] + Join(ms) + ['}']
  {
    TerminatedIsJoin(ms);
    if ms != [] {
      assert ['{'] + Terminated(ms) == (['{'] + Join(ms)) + [','];
    }
  }

  /** Writes one string member and its comma, if the value is
      non-empty; `ms` are the members the buffer holds after `start`. */
  method WriteMember(buf: Buffer, key: Bytes, v: Bytes, ghost start: Bytes, ghost ms: seq<Bytes>)
    requires buf.bytes == start + Terminated(ms)
    modifies buf
    ensures buf.bytes == start + Terminated(ms + Member(key, v))
  {
    if |v| > 0 {
      ghost var kv := KV(key, v, ':', '"', '"');
      BufWriteKV(buf, key, v, ':', '"', '"');
      buf.WriteByte(',');
      assert buf.bytes == start + Terminated(ms) + kv + [','];
      TerminatedSnoc(ms, kv);
      assert Member(key, v) == [kv];
    } else {
      assert ms + Member(key, v) == ms;
    }
  }

  lemma AppendThree(ms: seq<Bytes>, x: seq<Bytes>, y: seq<Bytes>, z: seq<Bytes>)
    ensures ms + x + y + z == ms + (x + y + z)
  {
  }

  /** marshalAuthor: the author icon, link and name members. */
  method MarshalAuthor(a: Attachment, buf: Buffer, ghost start: Bytes, ghost ms: seq<Bytes>)
    requires buf.bytes == start + Terminated(ms)
    modifies buf
    ensures buf.bytes == start + Terminated(ms + AuthorMembers(a))
  {
    WriteMember(buf, AuthorIconKey, a.authorIcon, start, ms);
    ghost var ms1 := ms + Member(AuthorIconKey, a.authorIcon);
    WriteMember(buf, AuthorLinkKey, a.authorLink, start, ms1);
    ghost var ms2 := ms1 + Member(AuthorLinkKey, a.authorLink);
    WriteMember(buf, AuthorNameKey, a.authorName, start, ms2);
    AppendThree(ms, Member(AuthorIconKey, a.authorIcon), Member(AuthorLinkKey, a.authorLink),
      Member(AuthorNameKey, a.authorName));
  }

  /** A member already encoded, and its comma. */
  method WriteTerminated(buf: Buffer, m: Bytes, ghost start: Bytes, ghost ms: seq<Bytes>)
    requires buf.bytes == start + Terminated(ms)
    modifies buf
    ensures buf.bytes == start + Terminated(ms + [m])
  {
    buf.WriteString(m);
    buf.WriteByte(',');
    TerminatedSnoc(ms, m);
  }

  /** The fields member and its comma, written when the list is
      non-empty; an error of the list encoder is returned instead. */
  method WriteFields(buf: Buffer, fs: Fields, ghost start: Bytes, ghost ms: seq<Bytes>)
    returns (err: Option<string>)
    requires buf.bytes == start + Terminated(ms)
    modifies buf
    ensures err == None
    ensures buf.bytes == start + Terminated(ms + FieldsMember(fs))
  {
    if |fs| > 0 {
      var bFields, ferr := FieldsCodec.MarshalJSON(fs);
      WriteTerminated(buf, FieldsKey + bFields, start, ms);
      assert FieldsMember(fs) == [FieldsKey + bFields];
      return ferr;
    } else {
      assert ms + FieldsMember(fs) == ms;
      return None;
    }
  }

  lemma MembersInOrder(a: Attachment)
    ensures Members(a) == AuthorMembers(a) + Member(ColorKey, a.color) + Member(FallbackKey, a.fallback)
      + FieldsMember(a.fields) + Member(ImageURLKey, a.imageURL) + Member(PretextKey, a.pretext)
      + Member(TextKey, a.text) + Member(TitleKey, a.title) + Member(TitleLinkKey, a.titleLink)
  {
  }

  /** The end of Attachment.MarshalJSON: the buffer's bytes with one
      trailing comma trimmed, then `}`. */
  method Close(buf: Buffer, ghost ms: seq<Bytes>) returns (out: Bytes)
    requires buf.bytes == ['{'] + Terminated(ms)
    ensures out == ['{'] + Join(ms) + ['}']
  {
    TrimTerminated(ms);
    out := buf.bytes;
    out := TrimComma(out);
    out := out + ['}'];
  }

  /** Attachment.MarshalJSON: `{`, the members each followed by a comma,
      one trailing comma trimmed, `}`. The error of the fields encoder is
      passed on; it is always nil. */
  method MarshalJSON(a: Attachment) returns (out: Bytes, err: Option<string>)
    ensures out == AttachmentJSON(a)
    ensures err == None
  {
    var buf := new Buffer();
    buf.WriteByte('{');
    ghost var start := buf.bytes;
    assert buf.bytes == start + Terminated([]);
    MarshalHead(a, buf, start);
    ghost var m2 := AuthorMembers(a) + Member(ColorKey, a.color) + Member(FallbackKey, a.fallback);
    var ferr := WriteFields(buf, a.fields, start, m2);
    if ferr.Some? {
      return [], ferr;
    }
    MarshalTail(a, buf, start, m2 + FieldsMember(a.fields));
    MembersInOrder(a);
    out := Close(buf, Members(a));
    err := None;
  }

  /** The members before the fields: author, colour, fallback. */
  method MarshalHead(a: Attachment, buf: Buffer, ghost start: Bytes)
    requires buf.bytes == start + Terminated([])
    modifies buf
    ensures buf.bytes == start + Terminated(AuthorMembers(a) + Member(ColorKey, a.color) + Member(FallbackKey, a.fallback))
  {
    MarshalAuthor(a, buf, start, []);
    ghost var m0 := AuthorMembers(a);
    assert [] + m0 == m0;
    WriteMember(buf, ColorKey, a.color, start, m0);
    WriteMember(buf, FallbackKey, a.fallback, start, m0 + Member(ColorKey, a.color));
  }

  /** The members after the fields: image, pretext, text, title, title link. */
  method MarshalTail(a: Attachment, buf: Buffer, ghost start: Bytes, ghost ms: seq<Bytes>)
    requires buf.bytes == start + Terminated(ms)
    modifies buf
    ensures buf.bytes == start + Terminated(ms + Member(ImageURLKey, a.imageURL) + Member(PretextKey, a.pretext)
      + Member(TextKey, a.text) + Member(TitleKey, a.title) + Member(TitleLinkKey, a.titleLink))
  {
    WriteMember(buf, ImageURLKey, a.imageURL, start, ms);
    ghost var m4 := ms + Member(ImageURLKey, a.imageURL);
    WriteMember(buf, PretextKey, a.pretext, start, m4);
    ghost var m5 := m4 + Member(PretextKey, a.pretext);
    WriteMember(buf, TextKey, a.text, start, m5);
    ghost var m6 := m5 + Member(TextKey, a.text);
    WriteMember(buf, TitleKey, a.title, start, m6);
    ghost var m7 := m6 + Member(TitleKey, a.title);
    WriteMember(buf, TitleLinkKey, a.titleLink, start, m7);
  }

  /** No string set and no fields. */
  predicate Blank(a: Attachment) {
    a.authorIcon == [] && a.authorLink == [] && a.authorName == [] && a.color == []
    && a.fallback == [] && a.fields == [] && a.imageURL == [] && a.pretext == []
    && a.text == [] && a.title == [] && a.titleLink == []
  }

  /** Every member holds at least its key. */
  lemma MembersNonEmpty(a: Attachment)
    ensures [] !in Members(a)
  {
    MemberNonEmpty(AuthorIconKey, a.authorIcon);
    MemberNonEmpty(AuthorLinkKey, a.authorLink);
    MemberNonEmpty(AuthorNameKey, a.authorName);
    var ms := AuthorMembers(a);
    assert [] !in ms;
    MemberNonEmpty(ColorKey, a.color);
    ms := ms + Member(ColorKey, a.color);
    MemberNonEmpty(FallbackKey, a.fallback);
    ms := ms + Member(FallbackKey, a.fallback);
    ms := ms + FieldsMember(a.fields);
    assert [] !in ms;
    MemberNonEmpty(ImageURLKey, a.imageURL);
    ms := ms + Member(ImageURLKey, a.imageURL);
    MemberNonEmpty(PretextKey, a.pretext);
    ms := ms + Member(PretextKey, a.pretext);
    MemberNonEmpty(TextKey, a.text);
    ms := ms + Member(TextKey, a.text);
    MemberNonEmpty(TitleKey, a.title);
    ms := ms + Member(TitleKey, a.title);
    MemberNonEmpty(TitleLinkKey, a.titleLink);
    ms := ms + Member(TitleLinkKey, a.titleLink);
    MembersInOrder(a);
  }

  lemma MemberNonEmpty(key: Bytes, v: Bytes)
    requires key != []
    ensures [] !in Member(key, v)
  {
    if |v| > 0 {
      assert KV(key, v, ':', '"', '"')[..|key|] == key;
    }
  }

  lemma {:induction false} JoinEmpty(ms: seq<Bytes>)
    requires [] !in ms
    ensures Join(ms) == [] <==> ms == []
  {
    if |ms| > 1 {
      assert ms[|ms| - 1] in ms;
    } else if |ms| == 1 {
      assert ms[0] in ms;
    }
  }

  /** An attachment is written as `{}` exactly when it is blank: any
      non-empty string, and any non-empty field list (even one whose
      fields are all absent), gives a member. */
  lemma EmptyObjectIffBlank(a: Attachment)
    ensures AttachmentJSON(a) == "{}" <==> Blank(a)
  {
    var ms := Members(a);
    MembersNonEmpty(a);
    JoinEmpty(ms);
    assert |ms| == 0 <==> Blank(a);
    if AttachmentJSON(a) == "{}" {
      assert |Join(ms)| == 0;
    }
  }

  /** A present member starts with its key's opening quote. */
  lemma MemberQuoted(key: Bytes, v: Bytes)
    requires |key| > 0 && key[0] == '"'
    ensures forall m :: m in Member(key, v) ==> |m| > 0 && m[0] == '"'
  {
  }

  /** Every member written starts with `"`. */
  lemma MembersQuoted(a: Attachment)
    ensures forall m :: m in Members(a) ==> |m| > 0 && m[0] == '"'
  {
    MemberQuoted(AuthorIconKey, a.authorIcon);
    MemberQuoted(AuthorLinkKey, a.authorLink);
    MemberQuoted(AuthorNameKey, a.authorName);
    var ms := AuthorMembers(a);
    MemberQuoted(ColorKey, a.color);
    ms := ms + Member(ColorKey, a.color);
    MemberQuoted(FallbackKey, a.fallback);
    ms := ms + Member(FallbackKey, a.fallback);
    ms := ms + FieldsMember(a.fields);
    MemberQuoted(ImageURLKey, a.imageURL);
    ms := ms + Member(ImageURLKey, a.imageURL);
    MemberQuoted(PretextKey, a.pretext);
    ms := ms + Member(PretextKey, a.pretext);
    MemberQuoted(TextKey, a.text);
    ms := ms + Member(TextKey, a.text);
    MemberQuoted(TitleKey, a.title);
    ms := ms + Member(TitleKey, a.title);
    MemberQuoted(TitleLinkKey, a.titleLink);
    ms := ms + Member(TitleLinkKey, a.titleLink);
    MembersInOrder(a);
  }

  /** A joined list starts where its first part starts. */
  lemma {:induction false} JoinHead(ms: seq<Bytes>)
    requires |ms| > 0 && |ms[0]| > 0
    ensures |Join(ms)| > 0 && Join(ms)[0] == ms[0][0]
  {
    if |ms| > 1 {
      var init := ms[..|ms| - 1];
      assert init[0] == ms[0];
      JoinHead(init);
    }
  }

  /** An object with a member opening with a quote holds a quote. */
  lemma QuotedObject(ms: seq<Bytes>)
    requires |ms| > 0 && |ms[0]| > 0 && ms[0][0] == '"'
    ensures !NoSpecial(['{'] + Join(ms) + ['}'])
  {
    JoinHead(ms);
    assert (['{'] + Join(ms) + ['}'])[1] == '"';
  }

  /** The encoding holds a backslash or a quote exactly when the
      attachment has a member: `{}` has neither, and every member opens
      with a quote. */
  lemma AttachmentNoSpecialIffBlank(a: Attachment)
    ensures NoSpecial(AttachmentJSON(a)) <==> Blank(a)
  {
    EmptyObjectIffBlank(a);
    if !Blank(a) {
      var ms := Members(a);
      MembersNonEmpty(a);
      JoinEmpty(ms);
      MembersQuoted(a);
      assert ms[0] in ms;
      QuotedObject(ms);
    }
  }

  /** A field list whose fields are all absent is still written, as an
      empty list under its key. */
  lemma AbsentFieldsStillWritten(fs: Fields)
    requires |fs| > 0
    requires forall i :: 0 <= i < |fs| ==> !FieldCodec.Present(fs[i])
    ensures AttachmentJSON(Empty.(fields := fs)) == "{" + ("\"fields\":" + "[]") + "}"
  {
    AllAbsentIsEmpty(fs);
    var a := Empty.(fields := fs);
    var head := AuthorMembers(a) + Member(ColorKey, a.color) + Member(FallbackKey, a.fallback);
    assert |head| == 0;
    var tail := Member(ImageURLKey, a.imageURL) + Member(PretextKey, a.pretext)
      + Member(TextKey, a.text) + Member(TitleKey, a.title) + Member(TitleLinkKey, a.titleLink);
    assert |tail| == 0;
    MembersRegroup(a);
    assert Members(a) == [FieldsKey + FieldsJSON(fs)];
    assert Join(Members(a)) == FieldsKey + FieldsJSON(fs);
  }

  /** Two members are joined by one comma inside the braces. */
  lemma TwoMembers(a: Attachment, x: Bytes, y: Bytes)
    requires Members(a) == [x, y]
    ensures AttachmentJSON(a) == ['{'] + (x + [','] + y) + ['}']
  {
    assert [x, y][..1] == [x];
    assert Join([x, y]) == x + [','] + y;
  }

  /** An attachment with only an author link and fields has the link's
      member and then the fields'. */
  lemma LinkAndFieldsMembers(v: Bytes, fs: Fields)
    requires |v| > 0
    ensures Members(Empty.(authorLink := v, fields := fs))
      == [KV(AuthorLinkKey, v, ':', '"', '"')] + FieldsMember(fs)
  {
    var a := Empty.(authorLink := v, fields := fs);
    var link := [KV(AuthorLinkKey, v, ':', '"', '"')];
    assert AuthorMembers(a) == link;
    var head := AuthorMembers(a) + Member(ColorKey, a.color) + Member(FallbackKey, a.fallback);
    assert head == link by {
      assert Member(ColorKey, a.color) == [] && Member(FallbackKey, a.fallback) == [];
    }
    var tail := Member(ImageURLKey, a.imageURL) + Member(PretextKey, a.pretext)
      + Member(TextKey, a.text) + Member(TitleKey, a.title) + Member(TitleLinkKey, a.titleLink);
    assert tail == [] by {
      assert |tail| == 0;
    }
    MembersRegroup(a);
    assert Members(a) == head + FieldsMember(fs) + tail;
  }

  lemma MembersRegroup(a: Attachment)
    ensures Members(a)
      == (AuthorMembers(a) + Member(ColorKey, a.color) + Member(FallbackKey, a.fallback))
      + FieldsMember(a.fields)
      + (Member(ImageURLKey, a.imageURL) + Member(PretextKey, a.pretext)
         + Member(TextKey, a.text) + Member(TitleKey, a.title) + Member(TitleLinkKey, a.titleLink))
  {
    var head := AuthorMembers(a) + Member(ColorKey, a.color) + Member(FallbackKey, a.fallback);
    AppendFive(head + FieldsMember(a.fields), Member(ImageURLKey, a.imageURL), Member(PretextKey, a.pretext),
      Member(TextKey, a.text), Member(TitleKey, a.title), Member(TitleLinkKey, a.titleLink));
  }

  lemma AppendFive(x: seq<Bytes>, b: seq<Bytes>, c: seq<Bytes>, d: seq<Bytes>, e: seq<Bytes>, f: seq<Bytes>)
    ensures x + b + c + d + e + f == x + (b + c + d + e + f)
  {
    assert x + b + c == x + (b + c);
    assert x + b + c + d == x + (b + c + d);
    assert x + b + c + d + e == x + (b + c + d + e);
  }

  /** An attachment with only an author link, free of bytes to escape,
      and a non-empty field list. */
  lemma LinkAndFieldsJSON(v: Bytes, fs: Fields)
    requires |v| > 0 && NoSpecial(v) && |fs| > 0
    ensures AttachmentJSON(Empty.(authorLink := v, fields := fs))
      == ['{'] + ((AuthorLinkKey + [':'] + ['"'] + v + ['"']) + [','] + (FieldsKey + FieldsJSON(fs))) + ['}']
  {
    LinkAndFieldsMembers(v, fs);
    KVQuoted(AuthorLinkKey, v, ':');
    TwoMembers(Empty.(authorLink := v, fields := fs), KV(AuthorLinkKey, v, ':', '"', '"'), FieldsKey + FieldsJSON(fs));
  }

  /** An attachment with only an author link, free of bytes to escape. */
  lemma LinkOnlyJSON(v: Bytes)
    requires |v| > 0 && NoSpecial(v)
    ensures AttachmentJSON(Empty.(authorLink := v))
      == ['{'] + (AuthorLinkKey + [':'] + ['"'] + v + ['"']) + ['}']
  {
    LinkAndFieldsMembers(v, []);
    assert Empty.(authorLink := v, fields := []) == Empty.(authorLink := v);
    KVQuoted(AuthorLinkKey, v, ':');
  }

  /** The golden outputs of hooks/logrus/attachment_test.go: the zero
      attachment and one with only an author link. */
  lemma AttachmentGolden()
    ensures AttachmentJSON(Empty) == "{}"
    ensures AttachmentJSON(Empty.(authorLink := "authorlink"))
      == "{" + ("\"author_link\"" + ":" + "\"" + "authorlink" + "\"") + "}"
  {
    EmptyObjectIffBlank(Empty);
    LinkOnlyJSON("authorlink");
  }

  /** The field list of the golden attachment with fields. */
  lemma GoldenFieldList()
    ensures var f1 := "{" + ("\"short\"" + ":" + "false")
          + "," + ("\"title\"" + ":" + "\"" + "t1" + "\"")
          + "," + ("\"value\"" + ":" + "\"" + "v1" + "\"") + "}";
      var f3 := "{" + ("\"short\"" + ":" + "true")
          + "," + ("\"title\"" + ":" + "\"" + "t3" + "\"")
          + "," + ("\"value\"" + ":" + "\"" + "v3" + "\"") + "}";
      FieldsJSON([FieldCodec.Field(false, "t1", "v1"), FieldCodec.Field(true, "", ""), FieldCodec.Field(true, "t3", "v3")])
        == "[" + (f1 + "," + f3) + "]"
  {
    var a, e, c := FieldCodec.Field(false, "t1", "v1"), FieldCodec.Field(true, "", ""), FieldCodec.Field(true, "t3", "v3");
    PlainPair('t', '1');
    PlainPair('v', '1');
    PlainPair('t', '3');
    PlainPair('v', '3');
    FieldCodec.FieldJSONVerbatim(a);
    FieldCodec.FieldJSONVerbatim(c);
    MiddleAbsent(a, e, c);
  }

  /** The golden output of hooks/logrus/attachment_test.go with fields:
      the absent middle field is skipped. */
  lemma AttachmentFieldsGolden()
    ensures var f1 := "{" + ("\"short\"" + ":" + "false")
          + "," + ("\"title\"" + ":" + "\"" + "t1" + "\"")
          + "," + ("\"value\"" + ":" + "\"" + "v1" + "\"") + "}";
      var f3 := "{" + ("\"short\"" + ":" + "true")
          + "," + ("\"title\"" + ":" + "\"" + "t3" + "\"")
          + "," + ("\"value\"" + ":" + "\"" + "v3" + "\"") + "}";
      AttachmentJSON(Empty.(authorLink := "authorlink",
          fields := [FieldCodec.Field(false, "t1", "v1"), FieldCodec.Field(true, "", ""), FieldCodec.Field(true, "t3", "v3")]))
        == "{" + (("\"author_link\"" + ":" + "\"" + "authorlink" + "\"")
          + "," + ("\"fields\":" + ("[" + (f1 + "," + f3) + "]"))) + "}"
  {
    var a, e, c := FieldCodec.Field(false, "t1", "v1"), FieldCodec.Field(true, "", ""), FieldCodec.Field(true, "t3", "v3");
    LinkAndFieldsJSON("authorlink", [a, e, c]);
    GoldenFieldList();
  }

  /** The fields SetFields builds from an entry's data: one short field
      per key, titled by the key and valued by its rendered value, in
      ascending key order. */
  function FieldsOf(data: map<Bytes, Bytes>): (fs: Fields)
    ensures |fs| == |data|
    ensures forall i :: 0 <= i < |fs| ==>
      fs[i].short && fs[i].title in data && fs[i].value == data[fs[i].title]
  {
    var ks := SortedKeys(data.Keys);
    SortedKeysLength(data.Keys);
    seq(|ks|, i requires 0 <= i < |ks| => FieldCodec.Field(true, ks[i], data[ks[i]]))
  }

  /** The i-th field is built from the i-th key in ascending order. */
  lemma FieldsOfAt(data: map<Bytes, Bytes>)
    ensures |FieldsOf(data)| == |SortedKeys(data.Keys)|
    ensures forall i :: 0 <= i < |FieldsOf(data)| ==>
      SortedKeys(data.Keys)[i] in data &&
      FieldsOf(data)[i] == FieldCodec.Field(true, SortedKeys(data.Keys)[i], data[SortedKeys(data.Keys)[i]])
  {
    SortedKeysLength(data.Keys);
  }

  /** Every data key has a field, and the titles ascend strictly, so no
      key has two. */
  lemma FieldsOfOrdered(data: map<Bytes, Bytes>)
    ensures var fs := FieldsOf(data);
      forall i, j :: 0 <= i < j < |fs| ==> Less(fs[i].title, fs[j].title)
    ensures var fs := FieldsOf(data);
      forall k :: k in data ==> exists i :: 0 <= i < |fs| && fs[i].title == k
  {
    var ks, fs := SortedKeys(data.Keys), FieldsOf(data);
    assert forall i :: 0 <= i < |fs| ==> fs[i].title == ks[i];
    forall i, j | 0 <= i < j < |fs|
      ensures Less(fs[i].title, fs[j].title)
    {
      assert fs[i].title == ks[i] && fs[j].title == ks[j];
    }
    forall k | k in data
      ensures exists i :: 0 <= i < |fs| && fs[i].title == k
    {
      assert k in ks;
      var i :| 0 <= i < |ks| && ks[i] == k;
      assert fs[i].title == k;
    }
  }

  /** Attachment.SetFields: the fields are replaced by one field per data
      key, in sorted key order; nothing else changes. */
  method SetFields(attc: Attachment, data: map<Bytes, Bytes>) returns (r: Attachment)
    ensures r == attc.(fields := FieldsOf(data))
  {
    var fields: Fields := [];
    if |data| == 0 {
      return attc.(fields := fields);
    }
    var keys := SortedKeys(data.Keys);
    assert forall k :: k in keys ==> k in data;
    fields := FieldsFor(keys, data);
    FieldsOfAt(data);
    assert fields == FieldsOf(data);
    r := attc.(fields := fields);
  }

  /** The loop of SetFields: one short field per key, in the keys' order. */
  method FieldsFor(keys: seq<Bytes>, data: map<Bytes, Bytes>) returns (fields: Fields)
    requires forall k :: k in keys ==> k in data
    ensures |fields| == |keys|
    ensures forall j :: 0 <= j < |keys| ==> fields[j] == FieldCodec.Field(true, keys[j], data[keys[j]])
  {
    fields := [];
    for i := 0 to |keys|
      invariant |fields| == i
      invariant forall j :: 0 <= j < i ==> fields[j] == FieldCodec.Field(true, keys[j], data[keys[j]])
    {
      fields := fields + [FieldCodec.Field(true, keys[i], data[keys[i]])];
    }
  }

  /** The attachment NewAttachment makes from a default one for an entry:
      the default's author, image, pretext and title strings, no fallback,
      and the entry's colour, fields and text. */
  function ForEntry(d: Attachment, e: Entry): Attachment {
    d.(fallback := [], color := Color(e.level), fields := FieldsOf(e.data),
       text := Icon(e.level) + [' '] + e.message)
  }

  /** NewAttachment: no attachment without a default one; otherwise the
      author, image, pretext and title strings of the default are copied
      (its colour, fallback, fields and text are not), and an entry sets
      the colour of its level, its data as fields and the text
      `<level icon> <message>`. */
  method NewAttachment(def: Option<Attachment>, entry: Option<Entry>) returns (r: Option<Attachment>)
    ensures def.None? <==> r.None?
    ensures r.Some? ==> var d, n := def.value, r.value;
      n.authorIcon == d.authorIcon && n.authorLink == d.authorLink
      && n.authorName == d.authorName && n.imageURL == d.imageURL
      && n.pretext == d.pretext && n.title == d.title && n.titleLink == d.titleLink
      && n.fallback == []
    ensures r.Some? && entry.None? ==> r.value.color == [] && r.value.fields == [] && r.value.text == []
    ensures r.Some? && entry.Some? ==> var e, n := entry.value, r.value;
      n.color == Color(e.level) && n.fields == FieldsOf(e.data)
      && n.text == Icon(e.level) + [' '] + e.message
    ensures r.Some? && entry.Some? ==> r.value == ForEntry(def.value, entry.value)
  {
    if def.None? {
      return None;
    }
    var d := def.value;
    var attc := Attachment(d.authorIcon, d.authorLink, d.authorName, "", "", [],
      d.imageURL, d.pretext, "", d.title, d.titleLink);
    if entry.Some? {
      var e := entry.value;
      attc := attc.(color := Color(e.level));
      attc := SetFields(attc, e.data);
      attc := attc.(text := Icon(e.level) + [' '] + e.message);
    }
    return Some(attc);
  }

  /** An attachment made for an entry is never written as `{}`: its text
      holds at least the level icon. */
  lemma EntryAttachmentNotEmpty(a: Attachment, e: Entry)
    requires a.text == Icon(e.level) + [' '] + e.message
    ensures AttachmentJSON(a) != "{}"
  {
    EmptyObjectIffBlank(a);
  }
}
