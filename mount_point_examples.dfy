/**
 * The unmarshaller with one concrete pair of scalar decoders: round trip
 * of every MountPoint, and the worked token streams.
 */
module MountPointExamples {
  import opened Wrappers
  import opened JsonContext
  import opened MountPointTransform
  import opened MountPointProperties

  /** A string decoder that accepts a string value or null and rejects everything else. */
  function StrictString(t: Option<Token>): (r: Result<Option<string>, DecodeError>)
    ensures r.Ok? <==> t == Some(ValueNull) || (t.Some? && t.value.Value? && t.value.scalar.Text?)
  {
    match t
    case Some(ValueNull) => Ok(None)
    case Some(Value(Text(s))) => Ok(Some(s))
    case _ => Err(TypeMismatch("string", t))
  }

  /** A boolean decoder that accepts a boolean value or null and rejects everything else. */
  function StrictBoolean(t: Option<Token>): (r: Result<Option<bool>, DecodeError>)
    ensures r.Ok? <==> t == Some(ValueNull) || (t.Some? && t.value.Value? && t.value.scalar.Boolean?)
  {
    match t
    case Some(ValueNull) => Ok(None)
    case Some(Value(Boolean(b))) => Ok(Some(b))
    case _ => Err(TypeMismatch("boolean", t))
  }

  function Strict(): ScalarDecoders {
    ScalarDecoders(StrictString, StrictBoolean)
  }

  /** The entries a marshaller writes for a MountPoint: one per non-null field, in declaration order. */
  function EntriesOf(f: Fields): seq<Entry> {
    (if f.sourceVolume.Some? then [Entry(SourceVolume, Text(f.sourceVolume.value))] else [])
    + (if f.containerPath.Some? then [Entry(ContainerPath, Text(f.containerPath.value))] else [])
    + (if f.readOnly.Some? then [Entry(ReadOnly, Boolean(f.readOnly.value))] else [])
  }

  lemma {:induction false} FoldAppend(dec: ScalarDecoders, acc: Fields, a: seq<Entry>, b: seq<Entry>)
    ensures Fold(dec, acc, a + b) == match Fold(dec, acc, a)
                                     case Populated(f) => Fold(dec, f, b)
                                     case other => other
    decreases |a|
  {
    if a != [] {
      assert (a + b)[1..] == a[1..] + b;
      if !Known(a[0].name) {
        FoldAppend(dec, acc, a[1..], b);
      } else if Assign(dec, a[0].name, Some(Value(a[0].value)), acc).Ok? {
        FoldAppend(dec, Assign(dec, a[0].name, Some(Value(a[0].value)), acc).value, a[1..], b);
      }
    } else {
      assert a + b == b;
    }
  }

  /**
   * Every MountPoint survives writing its non-null fields as a JSON object
   * and unmarshalling that object: exactly those fields come back set.
   */
  lemma RoundTrip(f: Fields)
    ensures var tokens := EncodeObject(EntriesOf(f));
            var r := UnmarshallRun(tokens, Strict(), Start());
            && r.outcome == Populated(f)
            && r.cursor.next == |tokens| && r.cursor.current == Some(EndObject)
  {
    var sv := if f.sourceVolume.Some? then [Entry(SourceVolume, Text(f.sourceVolume.value))] else [];
    var cp := if f.containerPath.Some? then [Entry(ContainerPath, Text(f.containerPath.value))] else [];
    var ro := if f.readOnly.Some? then [Entry(ReadOnly, Boolean(f.readOnly.value))] else [];
    var f1 := Unset.(sourceVolume := f.sourceVolume);
    var f2 := f1.(containerPath := f.containerPath);
    assert Fold(Strict(), Unset, sv) == Populated(f1);
    assert Fold(Strict(), f1, cp) == Populated(f2);
    assert Fold(Strict(), f2, ro) == Populated(f);
    FoldAppend(Strict(), Unset, sv, cp);
    FoldAppend(Strict(), Unset, sv + cp, ro);
    DecodeObject(Strict(), EntriesOf(f));
  }

  /** A stream that is only VALUE_NULL gives null and consumes that one token. */
  lemma NullDocument()
    ensures UnmarshallRun([ValueNull], Strict(), Start()) == Run(Absent, Advance([ValueNull], Start()))
    ensures Advance([ValueNull], Start()).next == 1
  {
  }

  /** The three known fields in order, at the top level. */
  lemma AllThreeFields()
    ensures UnmarshallRun([StartObject,
                           FieldName("sourceVolume"), Value(Text("data")),
                           FieldName("containerPath"), Value(Text("/var/data")),
                           FieldName("readOnly"), Value(Boolean(true)),
                           EndObject], Strict(), Start()).outcome
         == Populated(Fields(Some("data"), Some("/var/data"), Some(true)))
  {
    var e1, e2, e3 := Entry(SourceVolume, Text("data")), Entry(ContainerPath, Text("/var/data")), Entry(ReadOnly, Boolean(true));
    var es := [e1, e2, e3];
    assert es[1..] == [e2, e3] && es[1..][1..] == [e3] && es[1..][1..][1..] == [];
    assert EncodeEntries([e3]) == [FieldName("readOnly"), Value(Boolean(true))];
    assert EncodeEntries([e2, e3]) == [FieldName("containerPath"), Value(Text("/var/data"))] + EncodeEntries([e3]);
    assert EncodeEntries(es) == [FieldName("sourceVolume"), Value(Text("data"))] + EncodeEntries([e2, e3]);
    var f1 := Fields(Some("data"), None, None);
    var f2 := Fields(Some("data"), Some("/var/data"), None);
    var f3 := Fields(Some("data"), Some("/var/data"), Some(true));
    assert Fold(Strict(), f2, [e3]) == Populated(f3);
    assert Fold(Strict(), f1, [e2, e3]) == Fold(Strict(), f2, [e3]);
    assert Fold(Strict(), Unset, es) == Fold(Strict(), f1, [e2, e3]);
    assert EncodeObject(es) == [StartObject,
                                FieldName("sourceVolume"), Value(Text("data")),
                                FieldName("containerPath"), Value(Text("/var/data")),
                                FieldName("readOnly"), Value(Boolean(true)),
                                EndObject];
    DecodeObject(Strict(), es);
  }

  /** An unknown field before a known one is skipped without an exception. */
  lemma UnknownFieldSkipped()
    ensures UnmarshallRun([StartObject,
                           FieldName("unknownField"), Value(Text("x")),
                           FieldName("sourceVolume"), Value(Text("vol1")),
                           EndObject], Strict(), Start()).outcome
         == Populated(Fields(Some("vol1"), None, None))
  {
    var e1, e2 := Entry("unknownField", Text("x")), Entry(SourceVolume, Text("vol1"));
    var es := [e1, e2];
    assert es[1..] == [e2] && es[1..][1..] == [];
    assert EncodeEntries([e2]) == [FieldName("sourceVolume"), Value(Text("vol1"))];
    assert EncodeEntries(es) == [FieldName("unknownField"), Value(Text("x"))] + EncodeEntries([e2]);
    assert !Known("unknownField");
    assert Fold(Strict(), Unset, [e2]) == Populated(Fields(Some("vol1"), None, None));
    assert Fold(Strict(), Unset, es) == Fold(Strict(), Unset, [e2]);
    assert EncodeObject(es) == [StartObject,
                                FieldName("unknownField"), Value(Text("x")),
                                FieldName("sourceVolume"), Value(Text("vol1")),
                                EndObject];
    DecodeObject(Strict(), es);
  }

  /**
   * The value of an unknown field may be an object holding a known name;
   * that name is one level too deep and is skipped, and the object's
   * END_OBJECT does not end the outer call.
   */
  lemma NestedUnknownObjectSkipped()
    ensures UnmarshallRun([StartObject,
                           FieldName("extra"), StartObject,
                             FieldName("sourceVolume"), Value(Text("inner")),
                           EndObject,
                           FieldName("sourceVolume"), Value(Text("outer")),
                           EndObject], Strict(), Start()).outcome
         == Populated(Fields(Some("outer"), None, None))
  {
    var t := [StartObject,
              FieldName("extra"), StartObject,
                FieldName("sourceVolume"), Value(Text("inner")),
              EndObject,
              FieldName("sourceVolume"), Value(Text("outer")),
              EndObject];
    var dec := Strict();
    var outer := Fields(Some("outer"), None, None);
    var c1 := Cursor(1, Some(StartObject), 1, [None], None, None);
    var c2 := Cursor(2, Some(FieldName("extra")), 1, [None], Some("extra"), None);
    var c3 := Cursor(3, Some(StartObject), 2, [None, Some("extra")], None, None);
    var c4 := Cursor(4, Some(FieldName("sourceVolume")), 2, [None, Some("extra")], Some("sourceVolume"), None);
    var c5 := Cursor(5, Some(Value(Text("inner"))), 2, [None, Some("extra")], Some("sourceVolume"), None);
    var c6 := Cursor(6, Some(EndObject), 1, [None], None, Some("extra"));
    var c7 := Cursor(7, Some(FieldName("sourceVolume")), 1, [None], Some("sourceVolume"), None);
    var c8 := Cursor(8, Some(Value(Text("outer"))), 1, [None], Some("sourceVolume"), None);
    var c9 := Cursor(9, Some(EndObject), 0, [], None, None);
    assert Advance(t, Start()) == c1;
    assert Advance(t, c1) == c2;
    assert Advance(t, c2) == c3;
    assert Advance(t, c3) == c4;
    assert Advance(t, c4) == c5;
    assert Advance(t, c5) == c6;
    assert Advance(t, c6) == c7;
    assert Advance(t, c7) == c8;
    assert Advance(t, c8) == c9;
    assert Loop(t, dec, 0, None, c9, outer) == Run(Populated(outer), c9);
    assert FieldTests(t, dec, 1, c7, Unset) == Next(c8, outer);
    assert Loop(t, dec, 0, None, c7, Unset) == Loop(t, dec, 0, None, c9, outer);
    assert Loop(t, dec, 0, None, c6, Unset) == Loop(t, dec, 0, None, c7, Unset);
    assert Loop(t, dec, 0, None, c5, Unset) == Loop(t, dec, 0, None, c6, Unset);
    assert FieldTests(t, dec, 1, c4, Unset) == Next(c4, Unset);
    assert Loop(t, dec, 0, None, c4, Unset) == Loop(t, dec, 0, None, c5, Unset);
    assert FieldTests(t, dec, 1, c3, Unset) == Next(c3, Unset);
    assert Loop(t, dec, 0, None, c3, Unset) == Loop(t, dec, 0, None, c4, Unset);
    assert FieldTests(t, dec, 1, c2, Unset) == Next(c2, Unset);
    assert Loop(t, dec, 0, None, c2, Unset) == Loop(t, dec, 0, None, c3, Unset);
    assert FieldTests(t, dec, 1, c1, Unset) == Next(c1, Unset);
    assert Loop(t, dec, 0, None, c1, Unset) == Loop(t, dec, 0, None, c2, Unset);
  }

  /**
   * A known name that comes up again inside the value of an unknown field
   * is at the wrong depth: the first, top-level occurrence is the one kept.
   */
  lemma NestedRepeatIgnored()
    ensures UnmarshallRun([StartObject,
                           FieldName("sourceVolume"), Value(Text("a")),
                           FieldName("extra"), StartObject,
                             FieldName("sourceVolume"), Value(Text("b")),
                           EndObject,
                           EndObject], Strict(), Start()).outcome
         == Populated(Fields(Some("a"), None, None))
  {
    var t := [StartObject,
              FieldName("sourceVolume"), Value(Text("a")),
              FieldName("extra"), StartObject,
                FieldName("sourceVolume"), Value(Text("b")),
              EndObject,
              EndObject];
    var dec := Strict();
    var first := Fields(Some("a"), None, None);
    var c1 := Cursor(1, Some(StartObject), 1, [None], None, None);
    var c2 := Cursor(2, Some(FieldName("sourceVolume")), 1, [None], Some("sourceVolume"), None);
    var c3 := Cursor(3, Some(Value(Text("a"))), 1, [None], Some("sourceVolume"), None);
    var c4 := Cursor(4, Some(FieldName("extra")), 1, [None], Some("extra"), None);
    var c5 := Cursor(5, Some(StartObject), 2, [None, Some("extra")], None, None);
    var c6 := Cursor(6, Some(FieldName("sourceVolume")), 2, [None, Some("extra")], Some("sourceVolume"), None);
    var c7 := Cursor(7, Some(Value(Text("b"))), 2, [None, Some("extra")], Some("sourceVolume"), None);
    var c8 := Cursor(8, Some(EndObject), 1, [None], None, Some("extra"));
    var c9 := Cursor(9, Some(EndObject), 0, [], None, None);
    assert Advance(t, Start()) == c1;
    assert Advance(t, c1) == c2;
    assert Advance(t, c2) == c3;
    assert Advance(t, c3) == c4;
    assert Advance(t, c4) == c5;
    assert Advance(t, c5) == c6;
    assert Advance(t, c6) == c7;
    assert Advance(t, c7) == c8;
    assert Advance(t, c8) == c9;
    assert Loop(t, dec, 0, None, c9, first) == Run(Populated(first), c9);
    assert Loop(t, dec, 0, None, c8, first) == Loop(t, dec, 0, None, c9, first);
    assert Loop(t, dec, 0, None, c7, first) == Loop(t, dec, 0, None, c8, first);
    assert FieldTests(t, dec, 1, c6, first) == Next(c6, first);
    assert Loop(t, dec, 0, None, c6, first) == Loop(t, dec, 0, None, c7, first);
    assert FieldTests(t, dec, 1, c5, first) == Next(c5, first);
    assert Loop(t, dec, 0, None, c5, first) == Loop(t, dec, 0, None, c6, first);
    assert FieldTests(t, dec, 1, c4, first) == Next(c4, first);
    assert Loop(t, dec, 0, None, c4, first) == Loop(t, dec, 0, None, c5, first);
    assert FieldTests(t, dec, 1, c2, Unset) == Next(c3, first);
    assert Loop(t, dec, 0, None, c2, Unset) == Loop(t, dec, 0, None, c4, first);
    assert FieldTests(t, dec, 1, c1, Unset) == Next(c1, Unset);
    assert Loop(t, dec, 0, None, c1, Unset) == Loop(t, dec, 0, None, c2, Unset);
  }
}
