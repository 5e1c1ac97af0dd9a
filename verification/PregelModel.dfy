/**
 The vocabulary of the Pregel engine: vertices, the maps that hold their state, the messages
 they exchange, and what one call of a vertex program does.

 A vertex state is a Go map and therefore a reference. The engine's copy, a queued task and a
 worker can all hold the same reference, and a program may write into the map it is given, so
 state maps live in an explicit store (`Ref` to `Fields`) and everything else holds references.
 */
module PregelModel {
  import opened Wrappers

  type VertexId = string

  /** Address of a state map. An address that is not allocated plays the nil map. */
  type Ref = nat

  datatype Value =
    | Number(n: int)
    | Decimal(r: real)
    | Text(s: string)
    | Flag(b: bool)
    | Weights(w: map<VertexId, real>)
    | Nothing

  /** The large number that combiners and vertex programs use for infinity. */
  const INFINITY: real := 1000000.0

  type Fields = map<string, Value>

  datatype StateMap = NilMap | Live(fields: Fields)

  datatype Payload =
    | IntValue(i: int)
    | FloatValue(f: real)
    | ListValue(items: seq<Payload>)
    | OtherValue(tag: string)

  datatype Message = Message(sender: VertexId, target: VertexId, value: Payload, step: int)

  /** What a program hands back: the very map it was given, or another one. */
  datatype Returned = Argument | NewMap(fields: Fields)

  /**
   One call of `Compute`: `written` is what the argument map holds afterwards, whatever is
   returned and whether or not the call fails.
   */
  datatype Outcome = Outcome(
    written: Fields, returned: Returned, messages: seq<Message>, halt: bool, error: Option<string>)

  /** All the vertex programs of a run, as one deterministic function. */
  type Program = (VertexId, StateMap, seq<Message>) -> Outcome

  function Read(cells: map<Ref, Fields>, ref: Ref): StateMap {
    if ref in cells then Live(cells[ref]) else NilMap
  }

  /** Writing through an allocated reference; a nil map holds nothing. */
  function Write(cells: map<Ref, Fields>, ref: Ref, fields: Fields): map<Ref, Fields> {
    if ref in cells then cells[ref := fields] else cells
  }

  /** What the map given to a call holds afterwards. */
  function LeftBehind(before: StateMap, o: Outcome): StateMap {
    if before.NilMap? then NilMap else Live(o.written)
  }

  /** The contents of the map that a call on `before` returns. */
  function FinalState(before: StateMap, o: Outcome): StateMap {
    match o.returned
    case NewMap(fields) => Live(fields)
    case Argument => LeftBehind(before, o)
  }

  /** One attempt: the state it was given and what it did. */
  datatype Attempt = Attempt(state: StateMap, outcome: Outcome)

  /**
   The attempt that counts, of a vertex that is tried again on the map its failed attempt left, with
   the same messages, as long as it fails and retries remain.
   */
  function LastAttempt(compute: Program, v: VertexId, state: StateMap, msgs: seq<Message>, retries: nat): Attempt
    decreases retries
  {
    var o := compute(v, state, msgs);
    if o.error.None? || retries == 0 then Attempt(state, o)
    else LastAttempt(compute, v, LeftBehind(state, o), msgs, retries - 1)
  }

  function FieldsOf(s: StateMap): Fields {
    if s.NilMap? then map[] else s.fields
  }

  function Lookup<T>(m: map<VertexId, T>, v: VertexId, default: T): T {
    if v in m then m[v] else default
  }
}
