/**
 * A model of the token cursor that the JSON unmarshallers read from.
 *
 * The cursor's own implementation is not part of this model. It is modelled
 * as a pull cursor over a finite sequence of tokens that keeps:
 *  - the current token (null before the first fetch and after the end),
 *  - the nesting depth: +1 on START_OBJECT/START_ARRAY, -1 on END_OBJECT/END_ARRAY,
 *  - a stack holding, for every open container, the field name that opened it,
 *  - the parent field name of the container the current token just closed.
 */
module JsonContext {
  import opened Wrappers

  /** The payload of a scalar value token. */
  datatype Scalar = Text(text: string) | Boolean(b: bool)

  /** The structural tokens of a JSON document. */
  datatype Token =
    | StartObject
    | EndObject
    | StartArray
    | EndArray
    | FieldName(name: string)
    | Value(scalar: Scalar)
    | ValueNull

  predicate IsStart(t: Token) { t.StartObject? || t.StartArray? }
  predicate IsEnd(t: Token) { t.EndObject? || t.EndArray? }

  /** The state of a cursor over a token sequence, as a value. */
  datatype Cursor = Cursor(
    next: nat,                    // index of the next token to fetch
    current: Option<Token>,       // the current token; None stands for null
    depth: int,                   // number of open containers
    parents: seq<Option<string>>, // for each open container, the field that opened it
    field: Option<string>,        // the most recent field name in the innermost container
    lastParsed: Option<string>)   // parent field of the container the current token closed

  /** A cursor that has not fetched anything yet. */
  function Start(): Cursor {
    Cursor(0, None, 0, [], None, None)
  }

  /** The field name of the innermost open container, or null at the top level. */
  function ParentOf(c: Cursor): Option<string> {
    if |c.parents| == 0 then None else c.parents[|c.parents| - 1]
  }

  /**
   * Tokens not yet consumed, counting the current one: the termination
   * measure of every loop that drives the cursor forward.
   */
  function Remaining(tokens: seq<Token>, c: Cursor): nat
    requires c.next <= |tokens|
  {
    |tokens| - c.next + (if c.current.Some? then 1 else 0)
  }

  /**
   * Fetching the next token. At the end of the stream the current token
   * becomes null and stays null.
   */
  function Advance(tokens: seq<Token>, c: Cursor): (d: Cursor)
    requires c.next <= |tokens|
    ensures d.next <= |tokens|
    ensures c.next < |tokens| ==> d.next == c.next + 1 && d.current == Some(tokens[c.next])
    ensures c.next == |tokens| ==> d.next == c.next && d.current.None?
    ensures Remaining(tokens, d) <= Remaining(tokens, c)
    ensures c.current.Some? ==> Remaining(tokens, d) < Remaining(tokens, c)
    ensures d.current.Some? && IsStart(d.current.value) ==> d.depth == c.depth + 1
    ensures d.current.Some? && IsEnd(d.current.value) ==> d.depth == c.depth - 1
    ensures d.current.None? || !(IsStart(d.current.value) || IsEnd(d.current.value)) ==> d.depth == c.depth
  {
    if c.next == |tokens| then
      c.(current := None, lastParsed := None)
    else
      var t := tokens[c.next];
      var d := c.(next := c.next + 1, current := Some(t), lastParsed := None);
      match t
      case StartObject | StartArray =>
        d.(depth := d.depth + 1, parents := d.parents + [d.field], field := None)
      case EndObject | EndArray =>
        if |d.parents| == 0 then
          d.(depth := d.depth - 1, field := None)
        else
          d.(depth := d.depth - 1, parents := d.parents[..|d.parents| - 1],
             lastParsed := d.parents[|d.parents| - 1], field := None)
      case FieldName(n) => d.(field := Some(n))
      case Value(_) => d
      case ValueNull => d
  }

  /** The context's testExpression: the current token is the field name `name` at depth `d`. */
  predicate Tests(c: Cursor, name: string, d: int) {
    c.current == Some(FieldName(name)) && c.depth == d
  }

  /** How fetching the token `t` moves the depth. */
  function DepthChange(t: Token): int {
    if IsStart(t) then 1 else if IsEnd(t) then -1 else 0
  }

  /** The unmarshaller context: a cursor that is advanced in place. */
  class JsonUnmarshallerContext {
    const tokens: seq<Token>
    var next: nat
    var currentToken: Option<Token>
    var depth: int
    var parents: seq<Option<string>>
    var field: Option<string>
    var lastParsed: Option<string>

    ghost predicate Valid()
      reads this
    {
      next <= |tokens|
    }

    /** The cursor state this object holds. */
    function State(): Cursor
      reads this
    {
      Cursor(next, currentToken, depth, parents, field, lastParsed)
    }

    constructor (tokens: seq<Token>)
      ensures Valid() && this.tokens == tokens && State() == Start()
    {
      this.tokens := tokens;
      next, currentToken, depth := 0, None, 0;
      parents, field, lastParsed := [], None, None;
    }

    function GetCurrentToken(): Option<Token>
      reads this
    {
      currentToken
    }

    function GetCurrentDepth(): int
      reads this
    {
      depth
    }

    function GetCurrentParentElement(): Option<string>
      reads this
    {
      ParentOf(State())
    }

    function GetLastParsedParentElement(): Option<string>
      reads this
    {
      lastParsed
    }

    /** Whether the current token is the field name `name` at depth `d`. */
    function TestExpression(name: string, d: int): bool
      reads this
    {
      Tests(State(), name, d)
    }

    /** Fetches the next token, updating the depth and parent bookkeeping. */
    method NextToken() returns (t: Option<Token>)
      requires Valid()
      modifies this
      ensures Valid()
      ensures State() == Advance(tokens, old(State()))
      ensures t == currentToken
    {
      lastParsed := None;
      if next == |tokens| {
        currentToken := None;
      } else {
        var token := tokens[next];
        next := next + 1;
        currentToken := Some(token);
        match token {
          case StartObject =>
            depth := depth + 1;
            parents := parents + [field];
            field := None;
          case StartArray =>
            depth := depth + 1;
            parents := parents + [field];
            field := None;
          case EndObject =>
            depth := depth - 1;
            PopParent();
          case EndArray =>
            depth := depth - 1;
            PopParent();
          case FieldName(n) =>
            field := Some(n);
          case Value(_) =>
          case ValueNull =>
        }
      }
      t := currentToken;
    }

    /** Closing a container: its parent field becomes the last parsed parent. */
    method PopParent()
      modifies this
      ensures next == old(next) && currentToken == old(currentToken) && depth == old(depth)
      ensures field.None?
      ensures |old(parents)| == 0 ==> parents == old(parents) && lastParsed == old(lastParsed)
      ensures |old(parents)| > 0 ==>
                parents == old(parents)[..|old(parents)| - 1] && lastParsed == old(parents)[|old(parents)| - 1]
    {
      if |parents| > 0 {
        lastParsed := parents[|parents| - 1];
        parents := parents[..|parents| - 1];
      }
      field := None;
    }
  }
}
