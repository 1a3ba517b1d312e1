/**
 * The ECS MountPoint JSON unmarshaller: a loop that walks the token cursor
 * and fills in the three fields of a MountPoint it finds at its own depth.
 *
 * `Unmarshall`, `Loop` and `FieldTests` state what one call computes, as
 * functions over cursor values; the class `MountPointJsonUnmarshaller`
 * holds the imperative loop, proved to follow them.
 */
module MountPointTransform {
  import opened Wrappers
  import opened JsonContext

  const SourceVolume: string := "sourceVolume"
  const ContainerPath: string := "containerPath"
  const ReadOnly: string := "readOnly"

  /** The field names the unmarshaller knows, tested in this order. */
  predicate Known(name: string) {
    name == SourceVolume || name == ContainerPath || name == ReadOnly
  }

  /** The three nullable fields of a MountPoint. */
  datatype Fields = Fields(sourceVolume: Option<string>, containerPath: Option<string>, readOnly: Option<bool>)

  /** A freshly constructed MountPoint: every field null. */
  const Unset: Fields := Fields(None, None, None)

  /** What a string or boolean decoder throws on a token it cannot decode. */
  datatype DecodeError = TypeMismatch(expected: string, found: Option<Token>)

  /**
   * The scalar decoders. Each reads the cursor's current token only and
   * either returns a (nullable) value or throws; their behaviour is a
   * parameter of this model.
   */
  datatype ScalarDecoders = ScalarDecoders(
    decodeString: Option<Token> -> Result<Option<string>, DecodeError>,
    decodeBoolean: Option<Token> -> Result<Option<bool>, DecodeError>)

  /** What a call returns: null, a MountPoint with these fields, or an exception. */
  datatype Outcome = Absent | Populated(fields: Fields) | Failed(error: DecodeError)

  /** An outcome together with the cursor the call leaves behind. */
  datatype Run = Run(outcome: Outcome, cursor: Cursor)

  /** The state between two of the sequential field tests. */
  datatype Step = Next(cursor: Cursor, fields: Fields) | Stop(cursor: Cursor, error: DecodeError)

  /** The value of one known field, whatever its type. */
  datatype FieldValue = StringField(s: Option<string>) | BooleanField(b: Option<bool>)

  function Get(f: Fields, name: string): FieldValue
    requires Known(name)
  {
    if name == SourceVolume then StringField(f.sourceVolume)
    else if name == ContainerPath then StringField(f.containerPath)
    else BooleanField(f.readOnly)
  }

  /**
   * Decoding the value token `tok` for the known field `name` and storing
   * it: the setter call of that field's test. Every other field keeps its
   * value.
   */
  function Assign(dec: ScalarDecoders, name: string, tok: Option<Token>, acc: Fields): (r: Result<Fields, DecodeError>)
    requires Known(name)
    ensures r.Ok? <==> (if name == ReadOnly then dec.decodeBoolean(tok).Ok? else dec.decodeString(tok).Ok?)
    ensures r.Ok? ==> Get(r.value, name) == (if name == ReadOnly then BooleanField(dec.decodeBoolean(tok).value)
                                             else StringField(dec.decodeString(tok).value))
    ensures r.Ok? ==> forall other | Known(other) && other != name :: Get(r.value, other) == Get(acc, other)
    ensures r.Err? ==> r.error == (if name == ReadOnly then dec.decodeBoolean(tok).error else dec.decodeString(tok).error)
  {
    if name == SourceVolume then
      match dec.decodeString(tok)
      case Ok(v) => Ok(acc.(sourceVolume := v))
      case Err(e) => Err(e)
    else if name == ContainerPath then
      match dec.decodeString(tok)
      case Ok(v) => Ok(acc.(containerPath := v))
      case Err(e) => Err(e)
    else
      match dec.decodeBoolean(tok)
      case Ok(v) => Ok(acc.(readOnly := v))
      case Err(e) => Err(e)
  }

  /**
   * One field test: when the current token is `name` at the target depth,
   * move to the value token and assign the decoded value.
   */
  function TestField(tokens: seq<Token>, dec: ScalarDecoders, name: string, target: int, c: Cursor, acc: Fields): (s: Step)
    requires c.next <= |tokens| && Known(name)
    ensures s.cursor.next <= |tokens|
    ensures !Tests(c, name, target) ==> s == Next(c, acc)
    ensures Tests(c, name, target) ==> s.cursor == Advance(tokens, c) && Remaining(tokens, s.cursor) < Remaining(tokens, c)
    ensures Tests(c, name, target) ==>
              var a := Assign(dec, name, s.cursor.current, acc);
              (s.Next? <==> a.Ok?) && (s.Next? ==> s.fields == a.value) && (s.Stop? ==> s.error == a.error)
  {
    if Tests(c, name, target) then
      var c' := Advance(tokens, c);
      match Assign(dec, name, c'.current, acc)
      case Ok(f) => Next(c', f)
      case Err(e) => Stop(c', e)
    else
      Next(c, acc)
  }

  /**
   * The three field tests of one iteration, in the source's order. They are
   * sequential: each sees the cursor the one before it left behind.
   */
  function FieldTests(tokens: seq<Token>, dec: ScalarDecoders, target: int, c: Cursor, acc: Fields): (s: Step)
    requires c.next <= |tokens|
    ensures s.cursor.next <= |tokens|
    ensures s == Next(c, acc) || Remaining(tokens, s.cursor) < Remaining(tokens, c)
    ensures c.current.Some? && c.current.value.FieldName? && !Known(c.current.value.name) ==> s == Next(c, acc)
    ensures c.depth != target ==> s == Next(c, acc)
  {
    match TestField(tokens, dec, SourceVolume, target, c, acc)
    case Stop(c1, e) => Stop(c1, e)
    case Next(c1, acc1) =>
      match TestField(tokens, dec, ContainerPath, target, c1, acc1)
      case Stop(c2, e) => Stop(c2, e)
      case Next(c2, acc2) => TestField(tokens, dec, ReadOnly, target, c2, acc2)
  }

  /**
   * Whether the current token closes the region of the call that was
   * entered at `originalDepth` under the parent field `parent`.
   */
  predicate Closes(c: Cursor, originalDepth: int, parent: Option<string>) {
    && c.current.Some? && IsEnd(c.current.value)
    && (c.lastParsed.None? || c.lastParsed == parent)
    && c.depth <= originalDepth
  }

  /**
   * The `while (true)` loop, from a cursor whose current token is the one
   * the loop is about to look at, with the fields assigned so far.
   */
  function Loop(tokens: seq<Token>, dec: ScalarDecoders, originalDepth: int, parent: Option<string>, c: Cursor, acc: Fields): (r: Run)
    requires c.next <= |tokens|
    ensures r.cursor.next <= |tokens| && c.next <= r.cursor.next
    ensures !r.outcome.Absent?
    ensures r.outcome.Populated? ==> r.cursor.current.None? || Closes(r.cursor, originalDepth, parent)
    decreases Remaining(tokens, c)
  {
    match c.current
    case None => Run(Populated(acc), c)
    case Some(t) =>
      if t.FieldName? || t.StartObject? then
        match FieldTests(tokens, dec, originalDepth + 1, c, acc)
        case Stop(c', e) => Run(Failed(e), c')
        case Next(c', acc') => Loop(tokens, dec, originalDepth, parent, Advance(tokens, c'), acc')
      else if Closes(c, originalDepth, parent) then
        Run(Populated(acc), c)
      else
        Loop(tokens, dec, originalDepth, parent, Advance(tokens, c), acc)
  }

  /** The first token the call inspects: the current one, or else the next one in the stream. */
  function FirstToken(tokens: seq<Token>, c: Cursor): Option<Token>
    requires c.next <= |tokens|
  {
    if c.current.Some? then c.current
    else if c.next < |tokens| then Some(tokens[c.next])
    else None
  }

  /** One call of `unmarshall` on a cursor in state `c`. */
  function UnmarshallRun(tokens: seq<Token>, dec: ScalarDecoders, c: Cursor): (r: Run)
    requires c.next <= |tokens|
    ensures r.cursor.next <= |tokens|
    ensures r.outcome.Absent? <==> FirstToken(tokens, c) == Some(ValueNull)
    ensures r.outcome.Absent? ==>
              r.cursor.current == Some(ValueNull) &&
              r.cursor.next == c.next + (if c.current.None? then 1 else 0)
  {
    var originalDepth := c.depth;
    var parent := ParentOf(c);
    var c1 := if c.current.None? then Advance(tokens, c) else c;
    if c1.current == Some(ValueNull) then Run(Absent, c1)
    else Loop(tokens, dec, originalDepth, parent, c1, Unset)
  }

  /** The MountPoint result object, filled in through its setters. */
  class MountPoint {
    var sourceVolume: Option<string>
    var containerPath: Option<string>
    var readOnly: Option<bool>

    function Value(): Fields
      reads this
    {
      Fields(sourceVolume, containerPath, readOnly)
    }

    constructor ()
      ensures Value() == Unset
    {
      sourceVolume, containerPath, readOnly := None, None, None;
    }

    method SetSourceVolume(v: Option<string>)
      modifies this
      ensures Value() == old(Value()).(sourceVolume := v)
    {
      sourceVolume := v;
    }

    method SetContainerPath(v: Option<string>)
      modifies this
      ensures Value() == old(Value()).(containerPath := v)
    {
      containerPath := v;
    }

    method SetReadOnly(v: Option<bool>)
      modifies this
      ensures Value() == old(Value()).(readOnly := v)
    {
      readOnly := v;
    }
  }

  /** What the method returns: null, a new MountPoint, or the exception it threw. */
  datatype Unmarshalled = Null | Object(mountPoint: MountPoint) | Threw(error: DecodeError)

  /** Whether the returned value is the one the outcome describes. */
  predicate Describes(r: Unmarshalled, o: Outcome)
    reads if r.Object? then {r.mountPoint} else {}
  {
    match r
    case Null => o.Absent?
    case Object(m) => o == Populated(m.Value())
    case Threw(e) => o == Failed(e)
  }

  class MountPointJsonUnmarshaller {

    constructor () {}

    /**
     * One of the three sequential `if`s: when the current token is `name`
     * at `targetDepth`, step onto the value token and call the field's setter
     * with the decoded value. A decoder exception is returned as `error`.
     */
    method TestAndAssign(context: JsonUnmarshallerContext, dec: ScalarDecoders, name: string, targetDepth: int, mountPoint: MountPoint)
      returns (error: Option<DecodeError>)
      requires context.Valid() && Known(name)
      modifies context, mountPoint
      ensures context.Valid()
      ensures var s := TestField(context.tokens, dec, name, targetDepth, old(context.State()), old(mountPoint.Value()));
              && context.State() == s.cursor
              && (s.Next? ==> error.None? && mountPoint.Value() == s.fields)
              && (s.Stop? ==> error == Some(s.error))
    {
      if !context.TestExpression(name, targetDepth) { return None; }
      var _ := context.NextToken();
      if name == SourceVolume {
        var v := dec.decodeString(context.GetCurrentToken());
        if v.Err? { return Some(v.error); }
        mountPoint.SetSourceVolume(v.value);
      } else if name == ContainerPath {
        var v := dec.decodeString(context.GetCurrentToken());
        if v.Err? { return Some(v.error); }
        mountPoint.SetContainerPath(v.value);
      } else {
        var v := dec.decodeBoolean(context.GetCurrentToken());
        if v.Err? { return Some(v.error); }
        mountPoint.SetReadOnly(v.value);
      }
      return None;
    }

    /** The three field tests of one iteration, in the source's order. */
    method FieldTestsInPlace(context: JsonUnmarshallerContext, dec: ScalarDecoders, targetDepth: int, mountPoint: MountPoint)
      returns (error: Option<DecodeError>)
      requires context.Valid()
      modifies context, mountPoint
      ensures context.Valid()
      ensures var s := FieldTests(context.tokens, dec, targetDepth, old(context.State()), old(mountPoint.Value()));
              && context.State() == s.cursor
              && (s.Next? ==> error.None? && mountPoint.Value() == s.fields)
              && (s.Stop? ==> error == Some(s.error))
    {
      error := TestAndAssign(context, dec, SourceVolume, targetDepth, mountPoint);
      if error.Some? { return; }
      error := TestAndAssign(context, dec, ContainerPath, targetDepth, mountPoint);
      if error.Some? { return; }
      error := TestAndAssign(context, dec, ReadOnly, targetDepth, mountPoint);
    }

    /** Decodes one MountPoint from the cursor, or null, or throws. */
    method Unmarshall(context: JsonUnmarshallerContext, dec: ScalarDecoders) returns (r: Unmarshalled)
      requires context.Valid()
      modifies context
      ensures context.Valid()
      ensures context.State() == UnmarshallRun(context.tokens, dec, old(context.State())).cursor
      ensures Describes(r, UnmarshallRun(context.tokens, dec, old(context.State())).outcome)
      ensures r.Object? ==> fresh(r.mountPoint)
    {
      var mountPoint := new MountPoint();

      var originalDepth := context.GetCurrentDepth();
      var currentParentElement := context.GetCurrentParentElement();
      var targetDepth := originalDepth + 1;

      var token := context.GetCurrentToken();
      if token.None? { token := context.NextToken(); }
      if token == Some(ValueNull) { return Null; }

      ghost var tokens := context.tokens;
      ghost var spec := Loop(tokens, dec, originalDepth, currentParentElement, context.State(), Unset);
      while true
        invariant context.Valid() && fresh(mountPoint)
        invariant token == context.currentToken
        invariant Loop(tokens, dec, originalDepth, currentParentElement, context.State(), mountPoint.Value()) == spec
        decreases Remaining(tokens, context.State())
      {
        if token.None? { break; }
        ghost var c := context.State();
        ghost var acc := mountPoint.Value();
        if token.value.FieldName? || token.value == StartObject {
          var error := FieldTestsInPlace(context, dec, targetDepth, mountPoint);
          if error.Some? {
            assert spec == Run(Failed(error.value), context.State());
            return Threw(error.value);
          }
          assert spec == Loop(tokens, dec, originalDepth, currentParentElement,
                              Advance(tokens, context.State()), mountPoint.Value());
        } else if token.value == EndArray || token.value == EndObject {
          if context.GetLastParsedParentElement().None? || context.GetLastParsedParentElement() == currentParentElement {
            if context.GetCurrentDepth() <= originalDepth {
              assert spec == Run(Populated(acc), c);
              break;
            }
          }
          assert spec == Loop(tokens, dec, originalDepth, currentParentElement, Advance(tokens, c), acc);
        } else {
          assert spec == Loop(tokens, dec, originalDepth, currentParentElement, Advance(tokens, c), acc);
        }
        token := context.NextToken();
      }
      return Object(mountPoint);
    }
  }

  /** The lazily created shared instance, held in the class's static field. */
  class MountPointJsonUnmarshallerStatics {
    var instance: MountPointJsonUnmarshaller?

    constructor ()
      ensures instance == null
    {
      instance := null;
    }

    /** Creates the instance on the first call and returns that same instance ever after. */
    method GetInstance() returns (r: MountPointJsonUnmarshaller)
      modifies this
      ensures old(instance) != null ==> r == old(instance)
      ensures old(instance) == null ==> fresh(r)
      ensures instance == r
    {
      if instance == null {
        instance := new MountPointJsonUnmarshaller();
      }
      r := instance;
    }
  }
}
