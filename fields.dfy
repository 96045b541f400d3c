/** The list of fields of a message attachment (hooks/logrus/fields.go). */
module FieldsCodec {
  import opened Wrappers
  import opened Buffers
  import opened FieldCodec

  type Fields = seq<Field>

  /** What Field.MarshalJSON returns for each field, in list order. */
  function Encodings(fs: Fields): (outs: seq<Bytes>)
    ensures |outs| == |fs|
    ensures forall i :: 0 <= i < |fs| ==> outs[i] == FieldJSON(fs[i])
  {
    seq(|fs|, i requires 0 <= i < |fs| => FieldJSON(fs[i]))
  }

  /** An encoding longer than `{}` is kept. */
  predicate Kept(out: Bytes) {
    |out| > 2
  }

  /** The comma that a pending separator flag writes. */
  function Comma(sep: bool): (r: Bytes)
    ensures |r| <= 1
  {
    if sep then [','] else []
  }

  /** The loop's separator flag after visiting the first `n` encodings:
      whether the last one visited was kept. */
  predicate Sep(outs: seq<Bytes>, n: nat)
    requires n <= |outs|
  {
    n > 0 && Kept(outs[n - 1])
  }

  /** What a kept encoding contributes. */
  function Piece(out: Bytes): (r: Bytes)
    ensures r == [] || r == out
  {
    if Kept(out) then out else []
  }

  /** The bytes the loop of Fields.MarshalJSON has written between the
      brackets after visiting the first `n` encodings: a comma before
      each encoding when the flag is up, then the encoding when it is
      kept. A dropped `{}` clears the flag. */
  function Emitted(outs: seq<Bytes>, n: nat): Bytes
    requires n <= |outs|
  {
    if n == 0 then []
    else Emitted(outs, n - 1) + Comma(Sep(outs, n - 1)) + Piece(outs[n - 1])
  }

  /** The whole wire form: the loop's bytes inside square brackets. */
  function FieldsJSON(fs: Fields): (out: Bytes)
    ensures |out| >= 2 && out[0] == '[' && out[|out| - 1] == ']'
  {
    Enclose('[', Emitted(Encodings(fs), |fs|), ']')
  }

  /** Reference: the kept encodings among the first `n`, in order. */
  function Written(outs: seq<Bytes>, n: nat): (r: seq<Bytes>)
    requires n <= |outs|
    ensures |r| <= n
  {
    if n == 0 then []
    else Written(outs, n - 1) + (if Kept(outs[n - 1]) then [outs[n - 1]] else [])
  }

  /** Something was kept and the first `n` encodings end with dropped
      ones: the comma written before the first of them is never
      followed. */
  predicate Dangling(outs: seq<Bytes>, n: nat)
    requires n <= |outs|
  {
    Written(outs, n) != [] && !Kept(outs[n - 1])
  }

  lemma JoinSnoc(parts: seq<Bytes>, x: Bytes)
    ensures Join(parts + [x]) == if parts == [] then x else Join(parts) + [','] + x
  {
    assert (parts + [x])[..|parts|] == parts;
  }

  /** Nothing written means the last encoding was dropped too. */
  lemma NothingWrittenLastDropped(outs: seq<Bytes>, n: nat)
    requires 0 < n <= |outs| && Written(outs, n) == []
    ensures !Kept(outs[n - 1])
  {
  }

  /** Before the n-th encoding is visited, the written bytes and the
      pending comma amount to the kept encodings joined, plus a comma if
      any were kept. */
  lemma StepLead(outs: seq<Bytes>, n: nat)
    requires 0 < n <= |outs|
    requires Emitted(outs, n - 1) == Join(Written(outs, n - 1)) + Comma(Dangling(outs, n - 1))
    ensures Emitted(outs, n - 1) + Comma(Sep(outs, n - 1))
      == if Written(outs, n - 1) == [] then [] else Join(Written(outs, n - 1)) + [',']
  {
    if Written(outs, n - 1) == [] && n > 1 {
      NothingWrittenLastDropped(outs, n - 1);
    }
  }

  /** The loop writes the kept encodings separated by single commas,
      skipping dropped ones wherever they are, plus one trailing comma
      exactly when the encodings end with dropped ones after a kept one. */
  predicate EmittedIsJoined(outs: seq<Bytes>, n: nat)
    requires n <= |outs|
  {
    Emitted(outs, n) == Join(Written(outs, n)) + Comma(Dangling(outs, n))
  }

  lemma JoinedBase(outs: seq<Bytes>)
    ensures EmittedIsJoined(outs, 0)
  {
    assert Written(outs, 0) == [];
  }

  lemma JoinedStep(outs: seq<Bytes>, n: nat)
    requires 0 < n <= |outs|
    requires EmittedIsJoined(outs, n - 1)
    ensures EmittedIsJoined(outs, n)
  {
    StepLead(outs, n);
    var w, x := Written(outs, n - 1), outs[n - 1];
    if Kept(x) {
      assert Written(outs, n) == w + [x];
      JoinSnoc(w, x);
    } else {
      assert Written(outs, n) == w;
    }
  }

  lemma {:induction false} EmittedIsJoin(outs: seq<Bytes>, n: nat)
    requires n <= |outs|
    ensures EmittedIsJoined(outs, n)
  {
    if n == 0 {
      JoinedBase(outs);
    } else {
      EmittedIsJoin(outs, n - 1);
      assert EmittedIsJoined(outs, n - 1);
      JoinedStep(outs, n);
    }
  }

  /** One visit of the loop extends the emitted bytes. */
  lemma EmittedStep(outs: seq<Bytes>, i: nat, before: Bytes, sep: bool, x: Bytes, after: Bytes)
    requires i < |outs| && sep == Sep(outs, i) && x == outs[i]
    requires before == ['['] + Emitted(outs, i)
    requires after == before + Comma(sep) + Piece(x)
    ensures after == ['['] + Emitted(outs, i + 1)
    ensures Sep(outs, i + 1) == Kept(x)
  {
    assert Emitted(outs, i + 1) == Emitted(outs, i) + Comma(sep) + Piece(x);
    Regroup3(['['], Emitted(outs, i), Comma(sep), Piece(x));
  }

  lemma Regroup3(a: Bytes, b: Bytes, c: Bytes, d: Bytes)
    ensures a + b + c + d == a + (b + c + d)
  {
  }

  /** The comma a raised separator flag writes. */
  method WriteComma(buf: Buffer, sep: bool)
    modifies buf
    ensures buf.bytes == old(buf.bytes) + Comma(sep)
  {
    if sep {
      buf.WriteByte(',');
    }
  }

  /** A kept encoding is written and raises the flag; `{}` lowers it. */
  method WritePiece(buf: Buffer, fout: Bytes) returns (sep: bool)
    modifies buf
    ensures buf.bytes == old(buf.bytes) + Piece(fout)
    ensures sep == Kept(fout)
  {
    if |fout| > 2 {
      buf.WriteString(fout);
      sep := true;
    } else {
      sep := false;
    }
  }

  /** One visit of the loop: the comma the flag asks for, then field `i`
      if it is kept. */
  method WriteNext(buf: Buffer, fs: Fields, i: nat, sep: bool) returns (sep': bool)
    requires i < |fs|
    requires buf.bytes == ['['] + Emitted(Encodings(fs), i) && sep == Sep(Encodings(fs), i)
    modifies buf
    ensures buf.bytes == ['['] + Emitted(Encodings(fs), i + 1) && sep' == Sep(Encodings(fs), i + 1)
  {
    ghost var outs, before := Encodings(fs), buf.bytes;
    WriteComma(buf, sep);
    ghost var mid := buf.bytes;
    var fout, _ := FieldCodec.MarshalJSON(fs[i]);
    assert fout == outs[i];
    sep' := WritePiece(buf, fout);
    assert buf.bytes == mid + Piece(fout);
    EmittedStep(outs, i, before, sep, fout, buf.bytes);
  }

  /** Fields.MarshalJSON: the separator loop over the list, each field
      encoded by Field.MarshalJSON and kept only when longer than `{}`.
      The error is always nil. */
  method MarshalJSON(fs: Fields) returns (out: Bytes, err: Option<string>)
    ensures out == FieldsJSON(fs)
    ensures err == None
  {
    ghost var outs := Encodings(fs);
    var buf := new Buffer();
    var sep := false;
    buf.WriteByte('[');
    for i := 0 to |fs|
      invariant buf.bytes == ['['] + Emitted(outs, i)
      invariant sep == Sep(outs, i)
    {
      sep := WriteNext(buf, fs, i, sep);
    }
    buf.WriteByte(']');
    out := buf.bytes;
    err := None;
  }

  /** The written encodings are the kept ones among the first `n`. */
  lemma {:induction false} WrittenIsFilter(outs: seq<Bytes>, n: nat)
    requires n <= |outs|
    ensures forall x :: x in Written(outs, n) <==> x in outs[..n] && Kept(x)
  {
    if n > 0 {
      WrittenIsFilter(outs, n - 1);
      assert outs[..n] == outs[..n - 1] + [outs[n - 1]];
    }
  }

  /** Nothing is written exactly when no encoding is kept. */
  lemma WrittenEmptyIff(outs: seq<Bytes>, n: nat)
    requires n <= |outs|
    ensures Written(outs, n) == [] <==> forall k :: 0 <= k < n ==> !Kept(outs[k])
  {
    WrittenIsFilter(outs, n);
    forall k | 0 <= k < n && Kept(outs[k])
      ensures outs[k] in Written(outs, n)
    {
      assert outs[k] == outs[..n][k];
    }
    if Written(outs, n) != [] {
      assert Written(outs, n)[0] in Written(outs, n);
    }
  }

  /** A field is kept exactly when it is present. */
  lemma KeptIffPresent(fs: Fields)
    ensures forall i :: 0 <= i < |fs| ==> (Kept(Encodings(fs)[i]) <==> Present(fs[i]))
  {
  }

  /** A list of absent fields, the empty list included, is `[]`. */
  lemma AllAbsentIsEmpty(fs: Fields)
    requires forall i :: 0 <= i < |fs| ==> !Present(fs[i])
    ensures FieldsJSON(fs) == "[]"
  {
    var outs := Encodings(fs);
    forall k | 0 <= k < |fs|
      ensures !Kept(outs[k])
    {
      assert outs[k] == FieldJSON(fs[k]);
    }
    WrittenEmptyIff(outs, |fs|);
    assert Written(outs, |fs|) == [];
    EmittedIsJoin(outs, |fs|);
    assert EmittedIsJoined(outs, |fs|);
    assert !Dangling(outs, |fs|);
    assert Emitted(outs, |fs|) == [];
    assert FieldsJSON(fs) == Enclose('[', [], ']');
  }

  lemma EmittedOne(outs: seq<Bytes>)
    requires |outs| >= 1 && Kept(outs[0])
    ensures Emitted(outs, 1) == outs[0]
  {
    assert Emitted(outs, 1) == [] + [] + outs[0];
  }

  lemma EmittedKeptDropped(outs: seq<Bytes>)
    requires |outs| >= 2 && Kept(outs[0]) && !Kept(outs[1])
    ensures Emitted(outs, 2) == outs[0] + [',']
  {
    EmittedOne(outs);
    assert Emitted(outs, 2) == outs[0] + [','] + [];
  }

  lemma EmittedKeptDroppedKept(outs: seq<Bytes>)
    requires |outs| == 3 && Kept(outs[0]) && !Kept(outs[1]) && Kept(outs[2])
    ensures Emitted(outs, 3) == outs[0] + [','] + outs[2]
  {
    EmittedKeptDropped(outs);
    assert Emitted(outs, 3) == outs[0] + [','] + [] + outs[2];
  }

  /** One present field is written alone between the brackets. */
  lemma SinglePresent(a: Field)
    requires Present(a)
    ensures FieldsJSON([a]) == ['['] + FieldJSON(a) + [']']
  {
    var outs := Encodings([a]);
    assert outs[0] == FieldJSON(a);
    EmittedOne(outs);
  }

  /** An absent field between two present ones is skipped, and the two
      are separated by exactly one comma. */
  lemma MiddleAbsent(a: Field, e: Field, c: Field)
    requires Present(a) && !Present(e) && Present(c)
    ensures FieldsJSON([a, e, c]) == ['['] + (FieldJSON(a) + [','] + FieldJSON(c)) + [']']
  {
    var outs := Encodings([a, e, c]);
    assert outs[0] == FieldJSON(a) && outs[2] == FieldJSON(c);
    EmittedKeptDroppedKept(outs);
  }

  /** An absent field after the last present one leaves the comma
      written before it in place: the output ends in `,]`. */
  lemma TrailingAbsent(a: Field, e: Field)
    requires Present(a) && !Present(e)
    ensures FieldsJSON([a, e]) == ['['] + (FieldJSON(a) + [',']) + [']']
  {
    var outs := Encodings([a, e]);
    assert outs[0] == FieldJSON(a);
    EmittedKeptDropped(outs);
  }

  /** The golden outputs of hooks/logrus/fields_test.go: one field. */
  lemma FieldsGoldenOne()
    ensures var f1 := "{" + ("\"short\"" + ":" + "false")
          + "," + ("\"title\"" + ":" + "\"" + "t1" + "\"")
          + "," + ("\"value\"" + ":" + "\"" + "v1" + "\"") + "}";
      FieldsJSON([Field(false, "t1", "v1")]) == "[" + f1 + "]"
  {
    var a := Field(false, "t1", "v1");
    FieldJSONVerbatim(a);
    SinglePresent(a);
  }

  /** The golden outputs of hooks/logrus/fields_test.go: an empty field
      between two set ones is skipped. */
  lemma FieldsGoldenSkip()
    ensures var f1 := "{" + ("\"short\"" + ":" + "false")
          + "," + ("\"title\"" + ":" + "\"" + "t1" + "\"")
          + "," + ("\"value\"" + ":" + "\"" + "v1" + "\"") + "}";
      var f3 := "{" + ("\"short\"" + ":" + "false")
          + "," + ("\"title\"" + ":" + "\"" + "t3" + "\"")
          + "," + ("\"value\"" + ":" + "\"" + "v3" + "\"") + "}";
      FieldsJSON([Field(false, "t1", "v1"), Field(true, "", ""), Field(false, "t3", "v3")])
        == "[" + (f1 + "," + f3) + "]"
  {
    var a, e, c := Field(false, "t1", "v1"), Field(true, "", ""), Field(false, "t3", "v3");
    PlainPair('t', '1');
    PlainPair('v', '1');
    PlainPair('t', '3');
    PlainPair('v', '3');
    FieldJSONVerbatim(a);
    FieldJSONVerbatim(c);
    MiddleAbsent(a, e, c);
  }
}
