/**
 * What one call of the MountPoint unmarshaller guarantees, stated over the
 * functions `UnmarshallRun` and `Loop` that the imperative method follows.
 */
module MountPointProperties {
  import opened Wrappers
  import opened JsonContext
  import opened MountPointTransform

  // ---------------------------------------------------------------------
  // Empty and exhausted streams
  // ---------------------------------------------------------------------

  /**
   * A cursor with no current token and nothing left to fetch yields a
   * MountPoint (not null) with all three fields unset.
   */
  lemma ExhaustedStreamGivesUnset(tokens: seq<Token>, dec: ScalarDecoders, c: Cursor)
    requires c.next == |tokens| && c.current.None?
    ensures UnmarshallRun(tokens, dec, c).outcome == Populated(Unset)
    ensures UnmarshallRun(tokens, dec, c).cursor.current.None?
  {
  }

  // ---------------------------------------------------------------------
  // Which fields a call writes
  // ---------------------------------------------------------------------

  /**
   * The field name `name` is not among `tokens[i..]` at depth `target`,
   * when the depth before fetching `tokens[i]` is `depth`.
   */
  predicate NoneAtDepth(tokens: seq<Token>, name: string, target: int, i: nat, depth: int)
    requires i <= |tokens|
    decreases |tokens| - i
  {
    i == |tokens| ||
      var d := depth + DepthChange(tokens[i]);
      && (tokens[i] == FieldName(name) ==> d != target)
      && NoneAtDepth(tokens, name, target, i + 1, d)
  }

  /**
   * The field name `name` does not come up at depth `target` from the
   * cursor on: neither as the current token nor as any later token, at the
   * depth the cursor will have when it reaches it.
   */
  predicate NotAhead(tokens: seq<Token>, name: string, target: int, c: Cursor)
    requires c.next <= |tokens|
  {
    !Tests(c, name, target) && NoneAtDepth(tokens, name, target, c.next, c.depth)
  }

  lemma AdvanceKeepsNotAhead(tokens: seq<Token>, name: string, target: int, c: Cursor)
    requires c.next <= |tokens| && NotAhead(tokens, name, target, c)
    ensures NotAhead(tokens, name, target, Advance(tokens, c))
  {
  }

  /**
   * The field tests of one iteration keep the field `name` when its field
   * name is not ahead of the cursor, and leave the cursor where that still
   * holds.
   */
  lemma FieldTestsKeep(tokens: seq<Token>, dec: ScalarDecoders, target: int, c: Cursor, acc: Fields, name: string)
    requires c.next <= |tokens| && Known(name) && NotAhead(tokens, name, target, c)
    ensures var s := FieldTests(tokens, dec, target, c, acc);
            s.Next? ==> Get(s.fields, name) == Get(acc, name) && NotAhead(tokens, name, target, s.cursor)
  {
    var s1 := TestField(tokens, dec, SourceVolume, target, c, acc);
    if s1.Next? {
      if s1.cursor != c { AdvanceKeepsNotAhead(tokens, name, target, c); }
      var s2 := TestField(tokens, dec, ContainerPath, target, s1.cursor, s1.fields);
      if s2.Next? {
        if s2.cursor != s1.cursor { AdvanceKeepsNotAhead(tokens, name, target, s1.cursor); }
        var s3 := TestField(tokens, dec, ReadOnly, target, s2.cursor, s2.fields);
        if s3.cursor != s2.cursor { AdvanceKeepsNotAhead(tokens, name, target, s2.cursor); }
      }
    }
  }

  /**
   * Nothing writes a field whose name does not come up again at the
   * target depth: when the field name `name` is not ahead of the cursor at
   * `originalDepth + 1`, the loop returns that field as it was. Occurrences
   * of the name inside nested containers, or after the call's region has
   * been closed at a shallower depth, never change it.
   */
  lemma {:induction false} FieldFrame(tokens: seq<Token>, dec: ScalarDecoders, originalDepth: int, parent: Option<string>,
                                      c: Cursor, acc: Fields, name: string)
    requires c.next <= |tokens| && Known(name) && NotAhead(tokens, name, originalDepth + 1, c)
    ensures var r := Loop(tokens, dec, originalDepth, parent, c, acc);
            r.outcome.Populated? ==> Get(r.outcome.fields, name) == Get(acc, name)
    decreases Remaining(tokens, c)
  {
    match c.current
    case None =>
    case Some(t) =>
      if t.FieldName? || t.StartObject? {
        var s := FieldTests(tokens, dec, originalDepth + 1, c, acc);
        FieldTestsKeep(tokens, dec, originalDepth + 1, c, acc, name);
        if s.Next? {
          var c' := Advance(tokens, s.cursor);
          AdvanceKeepsNotAhead(tokens, name, originalDepth + 1, s.cursor);
          FieldFrame(tokens, dec, originalDepth, parent, c', s.fields, name);
          assert Loop(tokens, dec, originalDepth, parent, c, acc) == Loop(tokens, dec, originalDepth, parent, c', s.fields);
        }
      } else if !Closes(c, originalDepth, parent) {
        var c' := Advance(tokens, c);
        AdvanceKeepsNotAhead(tokens, name, originalDepth + 1, c);
        FieldFrame(tokens, dec, originalDepth, parent, c', acc, name);
        assert Loop(tokens, dec, originalDepth, parent, c, acc) == Loop(tokens, dec, originalDepth, parent, c', acc);
      }
  }

  /**
   * A known field name at the target depth steps onto its value token and
   * assigns the decoded value; when that name does not occur again at the
   * target depth, the value is the one the call returns. So of repeated
   * occurrences at the object's own level the last one wins, and
   * occurrences nested deeper are ignored.
   */
  lemma LastOccurrenceWins(tokens: seq<Token>, dec: ScalarDecoders, originalDepth: int, parent: Option<string>,
                           c: Cursor, acc: Fields, name: string, f: Fields)
    requires c.next <= |tokens| && Known(name)
    requires Tests(c, name, originalDepth + 1)
    requires Assign(dec, name, Advance(tokens, c).current, acc) == Ok(f)
    requires NotAhead(tokens, name, originalDepth + 1, Advance(tokens, c))
    ensures var r := Loop(tokens, dec, originalDepth, parent, c, acc);
            r.outcome.Populated? ==> Get(r.outcome.fields, name) == Get(f, name)
  {
    var target := originalDepth + 1;
    var d := Advance(tokens, c);
    var s := FieldTests(tokens, dec, target, c, acc);
    if s.Next? {
      // The test for `name` fires on `c`; the tests before it see `c` and
      // do nothing, the tests after it start from `d`.
      var s1 := TestField(tokens, dec, SourceVolume, target, c, acc);
      var s2 := TestField(tokens, dec, ContainerPath, target, s1.cursor, s1.fields);
      var s3 := TestField(tokens, dec, ReadOnly, target, s2.cursor, s2.fields);
      if name == SourceVolume {
        assert s1 == Next(d, f);
        if s2.cursor != d { AdvanceKeepsNotAhead(tokens, name, target, d); }
        if s3.cursor != s2.cursor { AdvanceKeepsNotAhead(tokens, name, target, s2.cursor); }
      } else if name == ContainerPath {
        assert s1 == Next(c, acc) && s2 == Next(d, f);
        if s3.cursor != d { AdvanceKeepsNotAhead(tokens, name, target, d); }
      } else {
        assert s1 == Next(c, acc) && s2 == Next(c, acc) && s3 == Next(d, f);
      }
      assert Get(s.fields, name) == Get(f, name) && NotAhead(tokens, name, target, s.cursor);
      AdvanceKeepsNotAhead(tokens, name, target, s.cursor);
      FieldFrame(tokens, dec, originalDepth, parent, Advance(tokens, s.cursor), s.fields, name);
    }
  }

  // ---------------------------------------------------------------------
  // Decoding a flat object
  // ---------------------------------------------------------------------

  /** A field name with a scalar value, as it appears inside an object. */
  datatype Entry = Entry(name: string, value: Scalar)

  /** The tokens of a sequence of entries. */
  function EncodeEntries(es: seq<Entry>): (ts: seq<Token>)
    ensures |ts| == 2 * |es|
  {
    if es == [] then [] else [FieldName(es[0].name), Value(es[0].value)] + EncodeEntries(es[1..])
  }

  /** An object holding the entries, as the top-level document. */
  function EncodeObject(es: seq<Entry>): seq<Token> {
    [StartObject] + EncodeEntries(es) + [EndObject]
  }

  /**
   * The meaning of a flat object, entry by entry: an unknown name is
   * skipped, a known one is decoded and assigned, and the first decoder
   * exception ends the decoding.
   */
  function Fold(dec: ScalarDecoders, acc: Fields, es: seq<Entry>): Outcome
    decreases |es|
  {
    if es == [] then Populated(acc)
    else if !Known(es[0].name) then Fold(dec, acc, es[1..])
    else match Assign(dec, es[0].name, Some(Value(es[0].value)), acc)
      case Err(e) => Failed(e)
      case Ok(f) => Fold(dec, f, es[1..])
  }

  /** The loop over the rest of an object, one entry at a time. */
  lemma {:induction false} EntriesLoop(tokens: seq<Token>, dec: ScalarDecoders, c: Cursor, acc: Fields, es: seq<Entry>)
    requires c.next <= |tokens| && tokens[c.next..] == EncodeEntries(es) + [EndObject]
    requires c.depth == 1 && c.parents == [None]
    ensures var r := Loop(tokens, dec, 0, None, Advance(tokens, c), acc);
            && r.outcome == Fold(dec, acc, es)
            && (r.outcome.Populated? ==> r.cursor.next == |tokens| && r.cursor.current == Some(EndObject))
    decreases es
  {
    var d := Advance(tokens, c);
    if es == [] {
      assert tokens[c.next] == EndObject;
    } else {
      var e := es[0];
      assert tokens[c.next..][..2] == [FieldName(e.name), Value(e.value)];
      assert tokens[c.next] == FieldName(e.name) && tokens[c.next + 1] == Value(e.value);
      assert tokens[c.next + 2..] == EncodeEntries(es[1..]) + [EndObject] by {
        assert tokens[c.next + 2..] == tokens[c.next..][2..];
      }
      var v := Advance(tokens, d);
      if Known(e.name) {
        var s := FieldTests(tokens, dec, 1, d, acc);
        match Assign(dec, e.name, Some(Value(e.value)), acc)
        case Err(x) =>
          assert s == Stop(v, x);
        case Ok(f) =>
          assert s == Next(v, f);
          EntriesLoop(tokens, dec, v, f, es[1..]);
      } else {
        assert FieldTests(tokens, dec, 1, d, acc) == Next(d, acc);
        EntriesLoop(tokens, dec, v, acc, es[1..]);
      }
    }
  }

  /**
   * Decoding a top-level object of entries gives the entry-by-entry
   * meaning, and on success leaves the cursor on the object's END_OBJECT.
   */
  lemma DecodeObject(dec: ScalarDecoders, es: seq<Entry>)
    ensures var tokens := EncodeObject(es);
            var r := UnmarshallRun(tokens, dec, Start());
            && r.outcome == Fold(dec, Unset, es)
            && (r.outcome.Populated? ==> r.cursor.next == |tokens| && r.cursor.current == Some(EndObject))
  {
    var tokens := EncodeObject(es);
    var c1 := Advance(tokens, Start());
    assert c1.current == Some(StartObject);
    assert tokens[1..] == EncodeEntries(es) + [EndObject];
    assert FieldTests(tokens, dec, 1, c1, Unset) == Next(c1, Unset);
    EntriesLoop(tokens, dec, c1, Unset, es);
  }

  // ---------------------------------------------------------------------
  // Field order
  // ---------------------------------------------------------------------

  /** The entry decodes without an exception (or is skipped). */
  predicate Decodes(dec: ScalarDecoders, e: Entry) {
    !Known(e.name) || Assign(dec, e.name, Some(Value(e.value)), Unset).Ok?
  }

  lemma AssignDecodes(dec: ScalarDecoders, e: Entry, acc: Fields)
    requires Known(e.name)
    ensures Assign(dec, e.name, Some(Value(e.value)), acc).Ok? == Decodes(dec, e)
  {
  }

  /** Two adjacent entries with different names can be swapped. */
  lemma {:induction false} FoldSwap(dec: ScalarDecoders, acc: Fields, pre: seq<Entry>, e1: Entry, e2: Entry, post: seq<Entry>)
    requires e1.name != e2.name && Decodes(dec, e1) && Decodes(dec, e2)
    ensures Fold(dec, acc, pre + [e1, e2] + post) == Fold(dec, acc, pre + [e2, e1] + post)
    decreases pre
  {
    if pre == [] {
      assert ([e1, e2] + post)[1..] == [e2] + post;
      assert ([e2, e1] + post)[1..] == [e1] + post;
      assert ([e2] + post)[1..] == post && ([e1] + post)[1..] == post;
      if Known(e1.name) { AssignDecodes(dec, e1, acc); }
      if Known(e2.name) { AssignDecodes(dec, e2, acc); }
      if Known(e1.name) && Known(e2.name) {
        var f1 := Assign(dec, e1.name, Some(Value(e1.value)), acc).value;
        var f2 := Assign(dec, e2.name, Some(Value(e2.value)), acc).value;
        AssignDecodes(dec, e2, f1);
        AssignDecodes(dec, e1, f2);
      }
    } else {
      assert (pre + [e1, e2] + post)[1..] == pre[1..] + [e1, e2] + post;
      assert (pre + [e2, e1] + post)[1..] == pre[1..] + [e2, e1] + post;
      if !Known(pre[0].name) {
        FoldSwap(dec, acc, pre[1..], e1, e2, post);
      } else if Assign(dec, pre[0].name, Some(Value(pre[0].value)), acc).Ok? {
        FoldSwap(dec, Assign(dec, pre[0].name, Some(Value(pre[0].value)), acc).value, pre[1..], e1, e2, post);
      }
    }
  }

  /**
   * Swapping two adjacent fields with different names, both of which decode,
   * does not change what the unmarshaller returns.
   */
  lemma FieldOrderIrrelevant(dec: ScalarDecoders, pre: seq<Entry>, e1: Entry, e2: Entry, post: seq<Entry>)
    requires e1.name != e2.name && Decodes(dec, e1) && Decodes(dec, e2)
    ensures UnmarshallRun(EncodeObject(pre + [e1, e2] + post), dec, Start()).outcome
         == UnmarshallRun(EncodeObject(pre + [e2, e1] + post), dec, Start()).outcome
  {
    DecodeObject(dec, pre + [e1, e2] + post);
    DecodeObject(dec, pre + [e2, e1] + post);
    FoldSwap(dec, Unset, pre, e1, e2, post);
  }
}
