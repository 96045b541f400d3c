/** The shared escaping writer of hooks/logrus/buffer.go: a key, a
    separator, optional delimiters and an escaped value appended to a
    caller-owned byte buffer. */
module Buffers {

  /** A Go byte; Dafny string literals of plain ASCII text are Bytes. */
  type Byte = c: char | c as int < 0x100
  type Bytes = seq<Byte>

  /** The only two bytes the encoder escapes. */
  predicate Special(c: Byte) {
    c == '\\' || c == '"'
  }

  function CountSpecial(v: Bytes): nat {
    if v == [] then 0 else (if Special(v[0]) then 1 else 0) + CountSpecial(v[1..])
  }

  predicate NoSpecial(v: Bytes) {
    forall i :: 0 <= i < |v| ==> !Special(v[i])
  }

  /** Two ordinary bytes need no escaping. */
  lemma PlainPair(c: Byte, d: Byte)
    requires !Special(c) && !Special(d)
    ensures NoSpecial([c, d])
  {
  }

  /** The escaping of a single byte: a backslash before `\` and `"`,
      every other byte (newlines and control bytes included) as it is. */
  function EscapeByte(c: Byte): Bytes {
    if Special(c) then ['\\', c] else [c]
  }

  /** The escaping loop of bufWriteKV, byte by byte and in order. */
  function Escape(v: Bytes): Bytes {
    if v == [] then [] else EscapeByte(v[0]) + Escape(v[1..])
  }

  /** Drops every escaping backslash: the decoder of the narrow escaping. */
  function Unescape(s: Bytes): Bytes {
    if s == [] then []
    else if s[0] == '\\' && |s| >= 2 then [s[1]] + Unescape(s[2..])
    else [s[0]] + Unescape(s[1..])
  }

  lemma {:induction false} EscapeAppend(a: Bytes, b: Bytes)
    ensures Escape(a + b) == Escape(a) + Escape(b)
  {
    if a != [] {
      assert (a + b)[0] == a[0];
      assert (a + b)[1..] == a[1..] + b;
      EscapeAppend(a[1..], b);
    } else {
      assert a + b == b;
    }
  }

  /** One more byte of input adds its own escaping at the end. */
  lemma EscapeSnoc(v: Bytes, i: nat)
    requires i < |v|
    ensures Escape(v[..i + 1]) == Escape(v[..i]) + EscapeByte(v[i])
  {
    assert v[..i + 1] == v[..i] + [v[i]];
    EscapeAppend(v[..i], [v[i]]);
    assert Escape([v[i]]) == EscapeByte(v[i]) + Escape([]);
  }

  /** The escaped value grows by one byte per backslash or quote. */
  lemma {:induction false} EscapeLength(v: Bytes)
    ensures |Escape(v)| == |v| + CountSpecial(v)
  {
    if v != [] {
      EscapeLength(v[1..]);
    }
  }

  lemma {:induction false} CountSpecialZero(v: Bytes)
    ensures CountSpecial(v) == 0 <==> NoSpecial(v)
  {
    if v != [] {
      CountSpecialZero(v[1..]);
      assert forall i :: 1 <= i < |v| ==> v[i] == v[1..][i - 1];
    }
  }

  /** Escaping leaves a value unchanged exactly when it holds neither
      `\` nor `"`. */
  lemma {:induction false} EscapeIdentity(v: Bytes)
    ensures Escape(v) == v <==> NoSpecial(v)
  {
    EscapeLength(v);
    CountSpecialZero(v);
    if NoSpecial(v) && v != [] {
      assert NoSpecial(v[1..]) by {
        assert forall i :: 0 <= i < |v[1..]| ==> v[1..][i] == v[i + 1];
      }
      EscapeIdentity(v[1..]);
    }
  }

  /** Round trip: dropping the escaping backslashes gives the value back. */
  lemma {:induction false} UnescapeEscape(v: Bytes)
    ensures Unescape(Escape(v)) == v
  {
    if v != [] {
      var rest := Escape(v[1..]);
      UnescapeEscape(v[1..]);
      if Special(v[0]) {
        assert Escape(v) == ['\\', v[0]] + rest;
        assert (['\\', v[0]] + rest)[2..] == rest;
      } else {
        assert Escape(v) == [v[0]] + rest;
        assert ([v[0]] + rest)[1..] == rest;
      }
    }
  }

  /** Escaping is injective, so the escaped bytes determine the value. */
  lemma EscapeInjective(a: Bytes, b: Bytes)
    ensures Escape(a) == Escape(b) ==> a == b
  {
    UnescapeEscape(a);
    UnescapeEscape(b);
  }

  /** How an escaped value begins: never with a bare quote. */
  lemma EscapeStart(b: Bytes, y: Bytes)
    ensures b != [] ==> Escape(b) == EscapeByte(b[0]) + Escape(b[1..])
    ensures b != [] ==> (Escape(b) + ['"'] + y)[0] != '"'
    ensures b == [] ==> (Escape(b) + ['"'] + y)[0] == '"'
  {
  }

  /** The first byte of a value is read off its escaping: a backslash
      announces an escaped byte, anything else stands for itself. */
  lemma EscapeHead(a: Bytes, t: Bytes)
    requires a != []
    ensures var s := EscapeByte(a[0]) + t;
      if s[0] == '\\' then |s| >= 2 && a[0] == s[1] && |EscapeByte(a[0])| == 2
      else a[0] == s[0] && |EscapeByte(a[0])| == 1
  {
  }

  lemma Assoc(e: Bytes, r: Bytes, q: Bytes, x: Bytes)
    ensures e + (r + q + x) == (e + r) + q + x
  {
  }

  /** Two escaped texts followed by a quote that agree start with the
      same byte, and agree after it. */
  lemma EscapeQuoteStep(a: Bytes, b: Bytes, x: Bytes, y: Bytes)
    requires a != [] && b != []
    requires Escape(a) + ['"'] + x == Escape(b) + ['"'] + y
    ensures a[0] == b[0]
    ensures Escape(a[1..]) + ['"'] + x == Escape(b[1..]) + ['"'] + y
  {
    EscapeStart(a, x);
    EscapeStart(b, y);
    var ta, tb := Escape(a[1..]) + ['"'] + x, Escape(b[1..]) + ['"'] + y;
    var sa := EscapeByte(a[0]) + ta;
    Assoc(EscapeByte(a[0]), Escape(a[1..]), ['"'], x);
    Assoc(EscapeByte(b[0]), Escape(b[1..]), ['"'], y);
    assert sa == EscapeByte(b[0]) + tb;
    EscapeHead(a, ta);
    EscapeHead(b, tb);
    var n := |EscapeByte(a[0])|;
    assert ta == sa[n..];
    assert tb == sa[n..];
  }

  /** Escaped text followed by a quote is a prefix code: the first
      unescaped quote ends the value, so what precedes it is determined. */
  lemma {:induction false} EscapeQuoteUnique(a: Bytes, b: Bytes, x: Bytes, y: Bytes)
    requires Escape(a) + ['"'] + x == Escape(b) + ['"'] + y
    ensures a == b && x == y
  {
    EscapeStart(a, x);
    EscapeStart(b, y);
    if a == [] && b == [] {
      var sa := Escape(a) + ['"'] + x;
      assert x == sa[1..] == y;
    } else if a != [] && b != [] {
      EscapeQuoteStep(a, b, x, y);
      EscapeQuoteUnique(a[1..], b[1..], x, y);
      assert a == [a[0]] + a[1..] && b == [b[0]] + b[1..];
    }
  }

  /** A delimiter byte is written only when it is not zero. */
  function Delim(d: Byte): (r: Bytes)
    ensures |r| <= 1
    ensures r == [] <==> d as int == 0
    ensures d as int > 0 ==> r == [d]
  {
    if d as int > 0 then [d] else []
  }

  /** What one bufWriteKV call appends. */
  function KV(k: Bytes, v: Bytes, sep: Byte, l: Byte, r: Byte): Bytes {
    k + [sep] + Delim(l) + Escape(v) + Delim(r)
  }

  /** The appended bytes start with the unescaped key and the separator,
      and the value is recovered from between the delimiters. */
  lemma KVRecoversValue(k: Bytes, v: Bytes, sep: Byte, l: Byte, r: Byte)
    ensures var s := KV(k, v, sep, l, r);
      var i := |k| + 1 + |Delim(l)|;
      var j := |s| - |Delim(r)|;
      && i <= j
      && s[..|k|] == k && s[|k|] == sep
      && Unescape(s[i..j]) == v
  {
    var s := KV(k, v, sep, l, r);
    var i := |k| + 1 + |Delim(l)|;
    assert s[i..|s| - |Delim(r)|] == Escape(v);
    UnescapeEscape(v);
  }

  lemma KVAfter(start: Bytes, k: Bytes, v: Bytes, sep: Byte, l: Byte, r: Byte)
    ensures start + k + [sep] + Delim(l) + Escape(v) + Delim(r) == start + KV(k, v, sep, l, r)
  {
  }

  /** The layout of a pair whose value is quoted. */
  lemma KVQuotedLayout(k: Bytes, v: Bytes, sep: Byte)
    ensures KV(k, v, sep, '"', '"') == k + [sep] + ['"'] + Escape(v) + ['"']
  {
  }

  /** Dropping a prefix gives back what followed it. */
  lemma DropPrefix(a: Bytes, b: Bytes)
    ensures (a + b)[|a|..] == b
  {
  }

  /** A quoted value with nothing to escape is written as it is. */
  lemma KVQuoted(k: Bytes, v: Bytes, sep: Byte)
    requires NoSpecial(v)
    ensures KV(k, v, sep, '"', '"') == k + [sep] + ['"'] + v + ['"']
  {
    EscapeIdentity(v);
  }

  /** So is a bare (undelimited) value with nothing to escape. */
  lemma KVBare(k: Bytes, v: Bytes, sep: Byte)
    requires NoSpecial(v)
    ensures KV(k, v, sep, 0 as char, 0 as char) == k + [sep] + v
  {
    EscapeIdentity(v);
  }

  /** A double quote, the delimiter of JSON strings. */
  const Quote: Bytes := ['"']

  /** `body` between an opening and a closing byte. */
  function Enclose(l: Byte, body: Bytes, r: Byte): Bytes {
    [l] + body + [r]
  }

  /** The parts separated by single commas, with no comma at either end. */
  function Join(parts: seq<Bytes>): Bytes {
    if parts == [] then []
    else if |parts| == 1 then parts[0]
    else Join(parts[..|parts| - 1]) + [','] + parts[|parts| - 1]
  }

  /** Go's bytes.Buffer: a growable byte slice that writes append to. */
  class Buffer {
    var bytes: Bytes

    constructor ()
      ensures bytes == []
    {
      bytes := [];
    }

    method WriteByte(c: Byte)
      modifies this
      ensures bytes == old(bytes) + [c]
    {
      bytes := bytes + [c];
    }

    method WriteString(s: Bytes)
      modifies this
      ensures bytes == old(bytes) + s
    {
      bytes := bytes + s;
    }

    method Reset()
      modifies this
      ensures bytes == []
    {
      bytes := [];
    }
  }

  /** bufWriteKV: appends the key verbatim, the separator, the left
      delimiter if non-zero, the escaped value and the right delimiter if
      non-zero. The bytes already in the buffer are kept. */
  method BufWriteKV(buf: Buffer, k: Bytes, v: Bytes, sep: Byte, l: Byte, r: Byte)
    modifies buf
    ensures buf.bytes == old(buf.bytes) + KV(k, v, sep, l, r)
  {
    ghost var start := buf.bytes;
    buf.WriteString(k);
    buf.WriteByte(sep);
    WriteDelim(buf, l);
    WriteEscaped(buf, v);
    WriteDelim(buf, r);
    KVAfter(start, k, v, sep, l, r);
  }

  /** A delimiter byte, written only when it is non-zero. */
  method WriteDelim(buf: Buffer, d: Byte)
    modifies buf
    ensures buf.bytes == old(buf.bytes) + Delim(d)
  {
    if d as int > 0 {
      buf.WriteByte(d);
    }
  }

  /** The escaping loop of bufWriteKV: a backslash before each `\` and
      `"`, every byte in order. */
  method WriteEscaped(buf: Buffer, v: Bytes)
    modifies buf
    ensures buf.bytes == old(buf.bytes) + Escape(v)
  {
    ghost var head := buf.bytes;
    for i := 0 to |v|
      invariant buf.bytes == head + Escape(v[..i])
    {
      var c := v[i];
      ghost var before := buf.bytes;
      if c == '\\' {
        buf.WriteByte('\\');
        buf.WriteByte('\\');
      } else if c == '"' {
        buf.WriteByte('\\');
        buf.WriteByte('"');
      } else {
        buf.WriteByte(c);
      }
      assert buf.bytes == before + EscapeByte(c);
      EscapeSnoc(v, i);
    }
    assert v[..|v|] == v;
  }
}
