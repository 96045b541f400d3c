/** One title/value pair of a message attachment (hooks/logrus/field.go). */
module FieldCodec {
  import opened Wrappers
  import opened Buffers

  datatype Field = Field(short: bool, title: Bytes, value: Bytes)

  /** A field is written only when both its title and its value are set. */
  predicate Present(f: Field) {
    |f.title| > 0 && |f.value| > 0
  }

  function BoolLiteral(b: bool): Bytes {
    if b then "true" else "false"
  }

  const ShortKey: Bytes := "\"short\""
  const TitleKey: Bytes := "\"title\""
  const ValueKey: Bytes := "\"value\""
  const OpenBrace: Bytes := ['{']
  const PairSep: Bytes := [',']
  const CloseBrace: Bytes := ['}']

  /** The wire form of a field: `{}` when title or value is empty,
      otherwise `"short":` with a bare true/false, then the quoted and
      escaped title and value, in that order. */
  function FieldJSON(f: Field): (out: Bytes)
    ensures |out| >= 2 && out[0] == '{' && out[|out| - 1] == '}'
    ensures |out| > 2 <==> Present(f)
  {
    if !Present(f) then "{}"
    else
      OpenBrace + KV(ShortKey, BoolLiteral(f.short), ':', 0 as char, 0 as char)
      + PairSep + KV(TitleKey, f.title, ':', '"', '"')
      + PairSep + KV(ValueKey, f.value, ':', '"', '"')
      + CloseBrace
  }

  /** Field.MarshalJSON: writes `{`, then either jumps to the closing
      brace or writes the three pairs through bufWriteKV. The error is
      always nil. */
  method MarshalJSON(f: Field) returns (out: Bytes, err: Option<string>)
    ensures out == FieldJSON(f)
    ensures err == None
  {
    var buf := new Buffer();
    buf.WriteByte('{');
    ghost var b0 := buf.bytes;
    if |f.title| == 0 || |f.value| == 0 {
      // out:
    } else {
      WriteShort(buf, f.short);
      ghost var b1 := buf.bytes;
      buf.WriteByte(',');
      BufWriteKV(buf, TitleKey, f.title, ':', '"', '"');
      ghost var b2 := buf.bytes;
      buf.WriteByte(',');
      BufWriteKV(buf, ValueKey, f.value, ':', '"', '"');
      ThreePairs(b0, b1, b2, buf.bytes, KV(ShortKey, BoolLiteral(f.short), ':', 0 as char, 0 as char),
        KV(TitleKey, f.title, ':', '"', '"'), KV(ValueKey, f.value, ':', '"', '"'));
    }
    ghost var b3 := buf.bytes;
    buf.WriteByte('}');
    out := buf.bytes;
    err := None;
    WrittenField(f, b0, b3, out);
  }

  /** The bytes between the braces are the three pairs exactly when the
      field is present. */
  lemma WrittenField(f: Field, b0: Bytes, b3: Bytes, out: Bytes)
    requires b0 == [] + ['{'] && out == b3 + ['}']
    requires !Present(f) ==> b3 == b0
    requires Present(f) ==>
      b3 == b0 + KV(ShortKey, BoolLiteral(f.short), ':', 0 as char, 0 as char)
            + [','] + KV(TitleKey, f.title, ':', '"', '"') + [','] + KV(ValueKey, f.value, ':', '"', '"')
    ensures out == FieldJSON(f)
  {
    assert b0 == ['{'];
  }

  /** The `"short"` pair, its value the bare literal true or false. */
  method WriteShort(buf: Buffer, short: bool)
    modifies buf
    ensures buf.bytes == old(buf.bytes) + KV(ShortKey, BoolLiteral(short), ':', 0 as char, 0 as char)
  {
    if short {
      BufWriteKV(buf, ShortKey, "true", ':', 0 as char, 0 as char);
    } else {
      BufWriteKV(buf, ShortKey, "false", ':', 0 as char, 0 as char);
    }
  }

  /** Three pairs appended with a comma between each. */
  lemma ThreePairs(b0: Bytes, b1: Bytes, b2: Bytes, b3: Bytes, x: Bytes, y: Bytes, z: Bytes)
    requires b1 == b0 + x && b2 == b1 + [','] + y && b3 == b2 + [','] + z
    ensures b3 == b0 + x + [','] + y + [','] + z
  {
  }

  /** Values without `\` or `"` are written verbatim. */
  lemma FieldJSONVerbatim(f: Field)
    requires Present(f) && NoSpecial(f.title) && NoSpecial(f.value)
    ensures FieldJSON(f)
      == ['{'] + (ShortKey + [':'] + BoolLiteral(f.short))
      + [','] + (TitleKey + [':'] + ['"'] + f.title + ['"'])
      + [','] + (ValueKey + [':'] + ['"'] + f.value + ['"']) + ['}']
  {
    KVBare(ShortKey, BoolLiteral(f.short), ':');
    KVQuoted(TitleKey, f.title, ':');
    KVQuoted(ValueKey, f.value, ':');
  }

  /** Everything a present field writes before its escaped title. */
  function TitleLead(short: bool): (r: Bytes)
    ensures |r| > 9 && r[9] == BoolLiteral(short)[0]
  {
    ['{'] + (ShortKey + [':'] + BoolLiteral(short)) + [','] + (TitleKey + [':'] + ['"'])
  }

  /** Everything between the title's closing quote and the escaped value. */
  const ValueLead: Bytes := [','] + (ValueKey + [':'] + ['"'])


  lemma Regroup(o: Bytes, x: Bytes, c: Bytes, tl: Bytes, et: Bytes, q: Bytes, vl: Bytes, ev: Bytes, cl: Bytes)
    ensures o + x + c + (tl + et + q) + c + (vl + ev + q) + cl
         == (o + x + c + tl) + (et + q + ((c + vl) + (ev + q + cl)))
  {
  }

  /** The wire form of a present field, regrouped around its two
      escaped values. */
  function Framed(short: bool, title: Bytes, value: Bytes): Bytes {
    TitleLead(short) + (Escape(title) + Quote + (ValueLead + (Escape(value) + Quote + CloseBrace)))
  }

  lemma FieldLayout(f: Field)
    requires Present(f)
    ensures FieldJSON(f) == Framed(f.short, f.title, f.value)
  {
    KVBare(ShortKey, BoolLiteral(f.short), ':');
    KVQuotedLayout(TitleKey, f.title, ':');
    KVQuotedLayout(ValueKey, f.value, ':');
    Regroup(['{'], ShortKey + [':'] + BoolLiteral(f.short), [','], TitleKey + [':'] + ['"'],
      Escape(f.title), Quote, ValueKey + [':'] + ['"'], Escape(f.value), CloseBrace);
  }

  /** The tenth byte tells `true` from `false`; after the lead, the
      escaped title and then the escaped value are each closed by the
      first unescaped quote. */
  lemma FramedInjective(s1: bool, t1: Bytes, v1: Bytes, s2: bool, t2: Bytes, v2: Bytes)
    requires Framed(s1, t1, v1) == Framed(s2, t2, v2)
    ensures s1 == s2 && t1 == t2 && v1 == v2
  {
    var r1 := ValueLead + (Escape(v1) + Quote + CloseBrace);
    var r2 := ValueLead + (Escape(v2) + Quote + CloseBrace);
    var l1, l2 := TitleLead(s1), TitleLead(s2);
    assert l1[9] == Framed(s1, t1, v1)[9] == Framed(s2, t2, v2)[9] == l2[9];
    assert s1 == s2;
    DropPrefix(l1, Escape(t1) + Quote + r1);
    DropPrefix(l1, Escape(t2) + Quote + r2);
    EscapeQuoteUnique(t1, t2, r1, r2);
    DropPrefix(ValueLead, Escape(v1) + Quote + CloseBrace);
    DropPrefix(ValueLead, Escape(v2) + Quote + CloseBrace);
    EscapeQuoteUnique(v1, v2, CloseBrace, CloseBrace);
  }

  /** Two present fields with the same wire form are the same field: the
      encoding loses nothing. */
  lemma FieldJSONInjective(f: Field, g: Field)
    requires Present(f) && Present(g) && FieldJSON(f) == FieldJSON(g)
    ensures f == g
  {
    FieldLayout(f);
    FieldLayout(g);
    FramedInjective(f.short, f.title, f.value, g.short, g.title, g.value);
  }

  /** The golden outputs of hooks/logrus/field_test.go. */
  lemma FieldGolden()
    ensures FieldJSON(Field(false, "", "")) == "{}"
    ensures FieldJSON(Field(false, "", "value")) == "{}"
    ensures FieldJSON(Field(false, "title", "")) == "{}"
    ensures FieldJSON(Field(true, "title", "value"))
      == "{" + ("\"short\"" + ":" + "true")
      + "," + ("\"title\"" + ":" + "\"" + "title" + "\"")
      + "," + ("\"value\"" + ":" + "\"" + "value" + "\"") + "}"
  {
    FieldJSONVerbatim(Field(true, "title", "value"));
  }
}
