/**
 The message aggregator and the combiners (internal/core/pregel/message.go). Rounding of
 floating-point sums is outside the model: numbers are reals.
 */
module Messages {
  import opened Wrappers
  import opened PregelModel

  /** The combiners of the source; `NilCombiner` is the absence of one. */
  datatype Combiner = NilCombiner | NoCombiner | SumCombiner | MinCombiner | MaxCombiner | ListCombiner

  /** The value combiners read from a payload: ints are converted, the rest is skipped. */
  function Numeric(p: Payload): Option<real> {
    match p
    case IntValue(i) => Some(i as real)
    case FloatValue(f) => Some(f)
    case _ => None
  }

  function SumNumeric(msgs: seq<Message>): real {
    if msgs == [] then 0.0
    else
      var n := |msgs| - 1;
      SumNumeric(msgs[..n]) + (match Numeric(msgs[n].value) case None => 0.0 case Some(v) => v)
  }

  /** What `MinCombiner` minimises; `MaxCombiner` minimises the opposite, with the opposite sentinel. */
  function Key(c: Combiner, p: Payload): Option<real> {
    match Numeric(p)
    case None => None
    case Some(v) => Some(if c.MaxCombiner? then -v else v)
  }

  /** Index of the message that holds the running minimum, if any key went below the sentinel. */
  function BestIndex(c: Combiner, msgs: seq<Message>): (b: Option<nat>)
    ensures b.Some? ==>
              && b.value < |msgs|
              && Key(c, msgs[b.value].value).Some?
              && Key(c, msgs[b.value].value).value < INFINITY
  {
    if msgs == [] then None
    else
      var n := |msgs| - 1;
      var b := BestIndex(c, msgs[..n]);
      var v := Key(c, msgs[n].value);
      var bound := if b.Some? then Key(c, msgs[b.value].value).value else INFINITY;
      if v.Some? && v.value < bound then Some(n) else b
  }

  /** The winner is the first message that attains the minimum; without one no key is below the sentinel. */
  lemma {:induction false} BestIndexIsFirstMinimum(c: Combiner, msgs: seq<Message>)
    ensures var b := BestIndex(c, msgs);
            if b.Some? then
              var least := Key(c, msgs[b.value].value).value;
              && (forall i :: 0 <= i < |msgs| && Key(c, msgs[i].value).Some? ==> least <= Key(c, msgs[i].value).value)
              && (forall i :: 0 <= i < b.value && Key(c, msgs[i].value).Some? ==> least < Key(c, msgs[i].value).value)
            else
              forall i :: 0 <= i < |msgs| && Key(c, msgs[i].value).Some? ==> INFINITY <= Key(c, msgs[i].value).value
  {
    if msgs != [] {
      var n := |msgs| - 1;
      BestIndexIsFirstMinimum(c, msgs[..n]);
      assert forall i :: 0 <= i < n ==> msgs[..n][i] == msgs[i];
    }
  }

  function Values(msgs: seq<Message>): seq<Payload> {
    seq(|msgs|, i requires 0 <= i < |msgs| => msgs[i].value)
  }

  function Combine(c: Combiner, msgs: seq<Message>): Message
    requires msgs != [] && !c.NilCombiner?
  {
    if c.NoCombiner? then msgs[0]
    else if c.SumCombiner? then msgs[0].(value := FloatValue(SumNumeric(msgs)))
    else if c.ListCombiner? then msgs[0].(value := ListValue(Values(msgs)))
    else
      match BestIndex(c, msgs)
      case None => msgs[0]
      case Some(b) => msgs[b].(value := FloatValue(Numeric(msgs[b].value).value))
  }

  /** The loop of `SumCombiner.Combine`. */
  method SumCombine(msgs: seq<Message>) returns (combined: Option<Message>)
    ensures combined == if msgs == [] then None else Some(Combine(SumCombiner, msgs))
  {
    if |msgs| == 0 {
      return None;
    }
    var sum := 0.0;
    var first := msgs[0];
    for i := 0 to |msgs|
      invariant sum == SumNumeric(msgs[..i])
    {
      assert msgs[..i + 1][..i] == msgs[..i];
      match msgs[i].value {
        case IntValue(v) => sum := sum + v as real;
        case FloatValue(v) => sum := sum + v;
        case _ =>
      }
    }
    assert msgs[..|msgs|] == msgs;
    combined := Some(Message(first.sender, first.target, FloatValue(sum), first.step));
  }

  /** The loop of `MinCombiner.Combine`, with its sentinel and its fallback to the first message. */
  method MinCombine(msgs: seq<Message>) returns (combined: Option<Message>)
    ensures combined == if msgs == [] then None else Some(Combine(MinCombiner, msgs))
  {
    if |msgs| == 0 {
      return None;
    }
    var minVal := INFINITY;
    var minMsg: Option<Message> := None;
    for i := 0 to |msgs|
      invariant minMsg.Some? == BestIndex(MinCombiner, msgs[..i]).Some?
      invariant minMsg.Some? ==> minMsg.value == msgs[BestIndex(MinCombiner, msgs[..i]).value]
      invariant minVal == if minMsg.Some? then Numeric(minMsg.value.value).value else INFINITY
    {
      assert msgs[..i + 1][..i] == msgs[..i];
      var val := Numeric(msgs[i].value);
      if val.Some? && val.value < minVal {
        minVal := val.value;
        minMsg := Some(msgs[i]);
      }
    }
    assert msgs[..|msgs|] == msgs;
    if minMsg.Some? {
      return Some(minMsg.value.(value := FloatValue(minVal)));
    }
    combined := Some(msgs[0]);
  }

  /** The loop of `MaxCombiner.Combine`. */
  method MaxCombine(msgs: seq<Message>) returns (combined: Option<Message>)
    ensures combined == if msgs == [] then None else Some(Combine(MaxCombiner, msgs))
  {
    if |msgs| == 0 {
      return None;
    }
    var maxVal := -INFINITY;
    var maxMsg: Option<Message> := None;
    for i := 0 to |msgs|
      invariant maxMsg.Some? == BestIndex(MaxCombiner, msgs[..i]).Some?
      invariant maxMsg.Some? ==> maxMsg.value == msgs[BestIndex(MaxCombiner, msgs[..i]).value]
      invariant maxVal == if maxMsg.Some? then Numeric(maxMsg.value.value).value else -INFINITY
    {
      assert msgs[..i + 1][..i] == msgs[..i];
      var val := Numeric(msgs[i].value);
      if val.Some? && val.value > maxVal {
        maxVal := val.value;
        maxMsg := Some(msgs[i]);
      }
    }
    assert msgs[..|msgs|] == msgs;
    if maxMsg.Some? {
      return Some(maxMsg.value.(value := FloatValue(maxVal)));
    }
    combined := Some(msgs[0]);
  }

  /** The loop of `ListCombiner.Combine`. */
  method ListCombine(msgs: seq<Message>) returns (combined: Option<Message>)
    ensures combined == if msgs == [] then None else Some(Combine(ListCombiner, msgs))
  {
    if |msgs| == 0 {
      return None;
    }
    var values: seq<Payload> := [];
    var first := msgs[0];
    for i := 0 to |msgs|
      invariant values == Values(msgs[..i])
    {
      values := values + [msgs[i].value];
    }
    assert msgs[..|msgs|] == msgs;
    combined := Some(Message(first.sender, first.target, ListValue(values), first.step));
  }

  /** What a vertex is handed: several queued messages are replaced by their combination. */
  function Delivered(c: Combiner, queued: seq<Message>): seq<Message> {
    if !c.NilCombiner? && |queued| > 1 then [Combine(c, queued)] else queued
  }

  /** `NoCombiner` is meant to pass everything through; what is delivered is the whole queue only if it is short. */
  lemma NoCombinerDrops(queued: seq<Message>)
    ensures Delivered(NoCombiner, queued) == queued <==> |queued| <= 1
    ensures |queued| > 1 ==> Delivered(NoCombiner, queued) == [queued[0]]
  {
  }

  /** A queue is handed over as it is without a combiner, or when it is short; otherwise one message stands for it. */
  lemma DeliveredWhole(c: Combiner, queued: seq<Message>)
    ensures c == NilCombiner || |queued| <= 1 ==> Delivered(c, queued) == queued
    ensures c != NilCombiner && |queued| > 1 ==> |Delivered(c, queued)| == 1
  {
  }

  /** `x` is the numeric value of the message: an int is converted. */
  ghost predicate Carries(m: Message, x: real) {
    m.value == FloatValue(x) || (m.value.IntValue? && m.value.i as real == x)
  }

  /** The first message with the least value below a million stands for the queue, or the first one if there is none. */
  lemma DeliveredMin(queued: seq<Message>)
    requires |queued| > 1
    ensures var d := Delivered(MinCombiner, queued)[0];
            if exists i, x: real :: 0 <= i < |queued| && Carries(queued[i], x) && x < 1000000.0 then
              && d.value.FloatValue? && d.value.f < 1000000.0
              && (forall i, x: real :: 0 <= i < |queued| && Carries(queued[i], x) ==> d.value.f <= x)
              && (exists i :: 0 <= i < |queued| && Carries(queued[i], d.value.f) && d == queued[i].(value := d.value)
                       && forall j :: 0 <= j < i ==> !Carries(queued[j], d.value.f))
            else d == queued[0]
  {
    BestIndexIsFirstMinimum(MinCombiner, queued);
    forall i, x: real | 0 <= i < |queued| && Carries(queued[i], x)
      ensures Key(MinCombiner, queued[i].value) == Some(x)
    {
    }
    var b := BestIndex(MinCombiner, queued);
    if b.Some? {
      assert Carries(queued[b.value], Key(MinCombiner, queued[b.value].value).value);
    }
  }

  /** The same for the greatest value above minus a million. */
  lemma DeliveredMax(queued: seq<Message>)
    requires |queued| > 1
    ensures var d := Delivered(MaxCombiner, queued)[0];
            if exists i, x: real :: 0 <= i < |queued| && Carries(queued[i], x) && x > -1000000.0 then
              && d.value.FloatValue? && d.value.f > -1000000.0
              && (forall i, x: real :: 0 <= i < |queued| && Carries(queued[i], x) ==> x <= d.value.f)
              && (exists i :: 0 <= i < |queued| && Carries(queued[i], d.value.f) && d == queued[i].(value := d.value)
                       && forall j :: 0 <= j < i ==> !Carries(queued[j], d.value.f))
            else d == queued[0]
  {
    BestIndexIsFirstMinimum(MaxCombiner, queued);
    forall i, x: real | 0 <= i < |queued| && Carries(queued[i], x)
      ensures Key(MaxCombiner, queued[i].value) == Some(-x)
    {
    }
    var b := BestIndex(MaxCombiner, queued);
    if b.Some? {
      assert Carries(queued[b.value], -Key(MaxCombiner, queued[b.value].value).value);
    }
  }

  /** `ListCombiner` keeps every value, in order; it and `SumCombiner` keep the address of the first message. */
  lemma DeliveredList(queued: seq<Message>)
    requires |queued| > 1
    ensures var d := Delivered(ListCombiner, queued)[0];
            && d.value.ListValue? && |d.value.items| == |queued|
            && (forall i :: 0 <= i < |queued| ==> d.value.items[i] == queued[i].value)
            && d.sender == queued[0].sender && d.target == queued[0].target && d.step == queued[0].step
  {
  }

  lemma DeliveredSum(queued: seq<Message>)
    requires |queued| > 1
    ensures var d := Delivered(SumCombiner, queued)[0];
            && d.value.FloatValue? && d.sender == queued[0].sender && d.target == queued[0].target
            && d.step == queued[0].step
  {
  }

  /** One message joins the queue of its target. */
  function Queue(inbox: map<VertexId, seq<Message>>, m: Message): map<VertexId, seq<Message>> {
    inbox[m.target := Lookup(inbox, m.target, []) + [m]]
  }

  class MessageAggregator {
    var messages: map<VertexId, seq<Message>>
    const combiner: Combiner

    constructor (combiner: Combiner)
      ensures messages == map[] && this.combiner == combiner
    {
      this.messages := map[];
      this.combiner := combiner;
    }

    method AddMessage(m: Message)
      modifies this
      ensures messages == Queue(old(messages), m)
      ensures messages.Keys == old(messages).Keys + {m.target}
      ensures messages[m.target] == (if m.target in old(messages) then old(messages)[m.target] else []) + [m]
      ensures forall v :: v in messages && v != m.target ==> messages[v] == old(messages)[v]
    {
      messages := messages[m.target := (if m.target in messages then messages[m.target] else []) + [m]];
    }

    method GetMessages(v: VertexId) returns (msgs: seq<Message>)
      ensures msgs == Delivered(combiner, Lookup(messages, v, []))
      ensures v !in messages ==> msgs == []
      ensures v in messages && (combiner == NilCombiner || |messages[v]| <= 1) ==> msgs == messages[v]
      ensures v in messages && combiner != NilCombiner && |messages[v]| > 1 ==> |msgs| == 1
    {
      msgs := if v in messages then messages[v] else [];
      if combiner != NilCombiner && |msgs| > 1 {
        var combined: Option<Message>;
        match combiner {
          case SumCombiner => combined := SumCombine(msgs);
          case MinCombiner => combined := MinCombine(msgs);
          case MaxCombiner => combined := MaxCombine(msgs);
          case ListCombiner => combined := ListCombine(msgs);
          case NoCombiner => combined := Some(msgs[0]);
        }
        msgs := [combined.value];
      }
    }

    method Clear()
      modifies this
      ensures messages == map[]
    {
      messages := map[];
    }
  }
}
