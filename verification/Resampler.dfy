/** The streaming linear resampler of the browser microphone client. */
module Resampler {
  import opened Common

  /** Sample rates of the microphone and of the speech provider. */
  datatype Rates = Rates(input: real, output: real) {
    predicate Valid() {
      input > 0.0 && output > 0.0
    }

    function Ratio(): (r: real)
      requires Valid()
      ensures r > 0.0
      ensures input <= 2.0 * output <==> r <= 2.0
    {
      DivideOrder(input, output, 2.0);
      input / output
    }
  }

  /** What the resampler keeps between two pushes. */
  datatype State = State(buffer: seq<real>, position: real)

  const FRESH := State([], 0.0)

  /** How many positions of the grid 0, r, 2r, ..., reached by repeated addition as the loop does, lie strictly below x. */
  function Steps(x: real, r: real): nat
    requires r > 0.0
    decreases if x <= 0.0 then 0 else Ceiling(x / r)
  {
    if x <= 0.0 then 0
    else
      CeilStep(x, r);
      1 + Steps(x - r, r)
  }

  function At(data: seq<real>, i: int): real {
    if 0 <= i < |data| then data[i] else 0.0
  }

  /** The point a fraction of the way from left to right. */
  function Mix(left: real, right: real, fraction: real): real {
    left + (right - left) * fraction
  }

  function Interpolate(data: seq<real>, position: real): real {
    var left := position.Floor;
    Mix(At(data, left), At(data, left + 1), position - left as real)
  }

  function Samples(data: seq<real>, start: real, r: real, count: nat): (out: seq<real>)
    ensures |out| == count
  {
    seq(count, i requires 0 <= i < count => Interpolate(data, start + Multiple(i, r)))
  }

  /** Outputs of one push. */
  function PushOutput(rates: Rates, st: State, input: seq<real>): seq<real>
    requires rates.Valid()
  {
    if |input| == 0 then []
    else if rates.input == rates.output then input
    else
      var data := st.buffer + input;
      Samples(data, st.position, rates.Ratio(), Steps(|data| as real - 1.0 - st.position, rates.Ratio()))
  }

  /** Position reached at the end of the emission loop, before the consumed samples are dropped. */
  function Reached(rates: Rates, st: State, input: seq<real>): real
    requires rates.Valid()
  {
    var length := (|st.buffer| + |input|) as real;
    st.position + Multiple(Steps(length - 1.0 - st.position, rates.Ratio()), rates.Ratio())
  }

  /** State after one push. */
  function PushState(rates: Rates, st: State, input: seq<real>): State
    requires rates.Valid()
  {
    if |input| == 0 || rates.input == rates.output then st
    else
      var data := st.buffer + input;
      var consumed := Reached(rates, st, input).Floor;
      State(
        if 0 <= consumed <= |data| then data[consumed..] else [],
        Reached(rates, st, input) - consumed as real)
  }

  /** The object of the source, with its two mutable fields. */
  class LinearResampler {
    const rates: Rates
    var buffer: seq<real>
    var position: real

    ghost predicate Valid()
      reads this
    {
      rates.Valid() && 0.0 <= position
    }

    ghost function View(): State
      reads this
    {
      State(buffer, position)
    }

    constructor (rates: Rates)
      requires rates.Valid()
      ensures Valid() && this.rates == rates && View() == FRESH
    {
      this.rates := rates;
      buffer := [];
      position := 0.0;
    }

    /** The emission loop: interpolates at every position that still has a right neighbour. */
    method Emit(data: seq<real>, ratio: real) returns (output: seq<real>)
      requires 0.0 <= position && ratio > 0.0
      modifies this`position
      ensures output == Samples(data, old(position), ratio, Steps(|data| as real - 1.0 - old(position), ratio))
      ensures position == old(position) + Multiple(|output|, ratio) >= 0.0
    {
      hide Mix, Interpolate, Samples, Steps;
      output := [];
      ghost var span := |data| as real - 1.0 - position;
      SamplesNone(data, position, ratio);
      StepsCharacterised(span, ratio, 0);
      while position + 1.0 < |data| as real
        invariant 0.0 <= position == old(position) + Multiple(|output|, ratio)
        invariant |output| <= Steps(span, ratio)
        invariant output == Samples(data, old(position), ratio, |output|)
        decreases Steps(span, ratio) - |output|
      {
        StepsCharacterised(span, ratio, |output|);
        var leftIndex := position.Floor;
        var fraction := position - leftIndex as real;
        var left := data[leftIndex];
        var right := data[leftIndex + 1];
        InterpolateInside(data, position);
        SamplesSnoc(data, old(position), ratio, |output|);
        output := output + [Mix(left, right, fraction)];
        position := position + ratio;
      }
      StepsCharacterised(span, ratio, |output|);
    }

    method Push(input: seq<real>) returns (output: seq<real>)
      requires Valid()
      modifies this
      ensures Valid()
      ensures output == PushOutput(rates, old(View()), input)
      ensures View() == PushState(rates, old(View()), input)
    {
      hide Interpolate, Steps, Multiple;
      if |input| == 0 {
        return [];
      }
      if rates.input == rates.output {
        return input;
      }
      var data := buffer + input;
      output := Emit(data, rates.Ratio());
      var consumed := position.Floor;
      buffer := if consumed <= |data| then data[consumed..] else [];
      position := position - consumed as real;
    }
  }

  /** A whole capture: the pieces pushed one after the other into a fresh resampler. */
  function StreamState(rates: Rates, pieces: seq<seq<real>>): State
    requires rates.Valid()
  {
    if |pieces| == 0 then FRESH
    else PushState(rates, StreamState(rates, pieces[..|pieces| - 1]), pieces[|pieces| - 1])
  }

  function StreamOutput(rates: Rates, pieces: seq<seq<real>>): seq<real>
    requires rates.Valid()
  {
    if |pieces| == 0 then []
    else
      var earlier := pieces[..|pieces| - 1];
      StreamOutput(rates, earlier) + PushOutput(rates, StreamState(rates, earlier), pieces[|pieces| - 1])
  }

  function OneShot(rates: Rates, input: seq<real>): seq<real>
    requires rates.Valid()
  {
    PushOutput(rates, FRESH, input)
  }

  /** Number of outputs due once n samples have arrived, and those outputs, without any state. */
  function Due(n: nat, r: real): nat
    requires r > 0.0
  {
    Steps(n as real - 1.0, r)
  }

  function Reference(input: seq<real>, r: real): seq<real>
    requires r > 0.0
  {
    Samples(input, 0.0, r, Due(|input|, r))
  }

  // ---- arithmetic ----

  lemma DivideOrder(x: real, d: real, q: real)
    requires d > 0.0
    ensures x / d <= q <==> x <= q * d
    ensures x / d < q <==> x < q * d
  {
    var y := x / d;
    assert x == y * d;
    if y < q {
      assert y * d < q * d;
    } else if y > q {
      assert y * d > q * d;
    }
  }

  lemma CeilStep(x: real, r: real)
    requires r > 0.0 && x > 0.0
    ensures Ceiling(x / r) >= 1
    ensures Ceiling((x - r) / r) == Ceiling(x / r) - 1
  {
    var y := x / r;
    assert x == y * r;
    assert (y - 1.0) * r == x - r;
    DivideOrder(x - r, r, y - 1.0);
    DivideOrder(x, r, 0.0);
  }

  lemma {:induction false} GridIsProduct(k: nat, r: real)
    ensures Multiple(k, r) == k as real * r
  {
    if k > 0 {
      GridIsProduct(k - 1, r);
      assert k as real * r == (k - 1) as real * r + r;
    }
  }

  lemma {:induction false} GridAdds(j: nat, k: nat, r: real)
    ensures Multiple(j + k, r) == Multiple(j, r) + Multiple(k, r)
  {
    if k > 0 {
      GridAdds(j, k - 1, r);
      assert j + k - 1 == j + (k - 1);
    }
  }

  lemma {:induction false} GridPositive(k: nat, r: real)
    requires r > 0.0
    ensures Multiple(k, r) >= 0.0
  {
    if k > 0 {
      GridPositive(k - 1, r);
    }
  }

  /** The k-th position lies below x exactly when k is smaller than the number of steps. */
  lemma {:induction false} StepsCharacterised(x: real, r: real, k: nat)
    requires r > 0.0
    ensures Multiple(k, r) < x <==> k < Steps(x, r)
    decreases k
  {
    GridPositive(k, r);
    if k > 0 {
      StepsCharacterised(x - r, r, k - 1);
      GridPositive(k - 1, r);
    }
  }

  lemma StepsPositive(x: real, r: real)
    requires r > 0.0 && x > 0.0
    ensures Steps(x, r) >= 1
  {
  }

  /** The number of steps in closed form. */
  lemma {:induction false} StepsIsCeiling(x: real, r: real)
    requires r > 0.0 && x >= 0.0
    ensures Steps(x, r) == Ceiling(x / r)
    decreases if x <= 0.0 then 0 else Ceiling(x / r)
  {
    if x == 0.0 {
      assert x / r == 0.0;
    } else {
      CeilStep(x, r);
      if x - r >= 0.0 {
        StepsIsCeiling(x - r, r);
      } else {
        DivideOrder(x, r, 1.0);
        DivideOrder(x, r, 0.0);
      }
    }
  }

  /** Steps left after c of them have been taken, seen from the c-th position. */
  lemma {:induction false} StepsShift(x: real, r: real, c: nat)
    requires r > 0.0
    requires c <= Steps(x, r)
    ensures Steps(x - Multiple(c, r), r) == Steps(x, r) - c
    decreases c
  {
    if c > 0 {
      GridAdds(1, c - 1, r);
      StepsShift(x - r, r, c - 1);
      assert x - r - Multiple(c - 1, r) == x - Multiple(c, r);
    }
  }

  lemma DueMonotone(n: nat, m: nat, r: real)
    requires r > 0.0 && n <= m
    ensures Due(n, r) <= Due(m, r)
  {
    if Due(n, r) > 0 {
      StepsCharacterised(n as real - 1.0, r, Due(n, r) - 1);
      StepsCharacterised(m as real - 1.0, r, Due(n, r) - 1);
    }
  }

  lemma InterpolateInside(data: seq<real>, position: real)
    requires 0.0 <= position && position + 1.0 < |data| as real
    ensures var left := position.Floor;
            && 0 <= left < |data| - 1
            && Interpolate(data, position) == Mix(data[left], data[left + 1], position - left as real)
  {
  }

  lemma SamplesNone(data: seq<real>, start: real, r: real)
    ensures Samples(data, start, r, 0) == []
  {
  }

  lemma PushOutputSize(rates: Rates, st: State, input: seq<real>)
    requires rates.Valid() && rates.input != rates.output && |input| > 0
    ensures |PushOutput(rates, st, input)|
         == Steps((|st.buffer| + |input|) as real - 1.0 - st.position, rates.Ratio())
  {
    hide Interpolate, Steps, Multiple;
  }

  lemma SamplesSnoc(data: seq<real>, start: real, r: real, count: nat)
    ensures Samples(data, start, r, count + 1)
         == Samples(data, start, r, count) + [Interpolate(data, start + Multiple(count, r))]
  {
    hide Interpolate, Multiple;
  }

  // ---- the streaming invariant ----

  /** `st` is where a stream that has received exactly `input` should be: nothing pending was lost. */
  ghost predicate Tracks(st: State, input: seq<real>, r: real)
    requires r > 0.0
  {
    && |st.buffer| <= |input|
    && st.buffer == input[|input| - |st.buffer|..]
    && st.position == Multiple(Due(|input|, r), r) - (|input| - |st.buffer|) as real
    && 0.0 <= st.position
  }

  /** A push loses no position: what the loop consumed does not pass the end of the data. */
  predicate NoSkip(rates: Rates, st: State, input: seq<real>)
    requires rates.Valid()
  {
    Reached(rates, st, input).Floor <= |st.buffer| + |input|
  }

  lemma InterpolatePrefix(data: seq<real>, more: seq<real>, position: real)
    requires 0.0 <= position < |data| as real - 1.0
    ensures Interpolate(data + more, position) == Interpolate(data, position)
  {
    assert position.Floor + 1 < |data|;
  }

  lemma InterpolateDrop(data: seq<real>, dropped: nat, position: real)
    requires dropped <= |data|
    requires 0.0 <= position
    ensures Interpolate(data[dropped..], position) == Interpolate(data, position + dropped as real)
  {
    assert (position + dropped as real).Floor == position.Floor + dropped;
    var i := position.Floor;
    assert At(data[dropped..], i) == At(data, i + dropped);
    assert At(data[dropped..], i + 1) == At(data, i + 1 + dropped);
  }

  lemma SamplesDrop(data: seq<real>, dropped: nat, start: real, r: real, count: nat)
    requires dropped <= |data| && start >= 0.0 && r > 0.0
    ensures Samples(data[dropped..], start, r, count) == Samples(data, start + dropped as real, r, count)
  {
    hide Interpolate;
    forall i: nat | i < count
      ensures Samples(data[dropped..], start, r, count)[i] == Samples(data, start + dropped as real, r, count)[i]
    {
      GridPositive(i, r);
      InterpolateDrop(data, dropped, start + Multiple(i, r));
      assert start + Multiple(i, r) + dropped as real == start + dropped as real + Multiple(i, r);
    }
  }

  lemma ReferenceGrows(before: seq<real>, more: seq<real>, r: real)
    requires r > 0.0
    ensures Due(|before|, r) <= Due(|before| + |more|, r)
    ensures Reference(before + more, r) == Reference(before, r)
      + Samples(before + more, Multiple(Due(|before|, r), r), r, Due(|before| + |more|, r) - Due(|before|, r))
  {
    hide Interpolate, Steps;
    var all := before + more;
    var c, d := Due(|before|, r), Due(|all|, r);
    DueMonotone(|before|, |all|, r);
    var tail := Samples(all, Multiple(c, r), r, d - c);
    forall k: nat | k < d
      ensures Reference(all, r)[k] == (Reference(before, r) + tail)[k]
    {
      if k < c {
        StepsCharacterised(|before| as real - 1.0, r, k);
        GridPositive(k, r);
        InterpolatePrefix(before, more, Multiple(k, r));
        assert Reference(all, r)[k] == Interpolate(all, 0.0 + Multiple(k, r));
        assert Reference(before, r)[k] == Interpolate(before, 0.0 + Multiple(k, r));
      } else {
        GridAdds(c, k - c, r);
        assert Reference(all, r)[k] == Interpolate(all, 0.0 + Multiple(k, r));
        assert tail[k - c] == Interpolate(all, Multiple(c, r) + Multiple(k - c, r));
      }
    }
  }

  /** One push of a tracking state emits exactly the outputs that became due. */
  lemma PushEmitsDue(rates: Rates, st: State, before: seq<real>, input: seq<real>)
    requires rates.Valid() && rates.input != rates.output && |input| > 0
    requires Tracks(st, before, rates.Ratio())
    ensures Reference(before + input, rates.Ratio())
         == Reference(before, rates.Ratio()) + PushOutput(rates, st, input)
    ensures Reached(rates, st, input)
         == Multiple(Due(|before| + |input|, rates.Ratio()), rates.Ratio()) - (|before| - |st.buffer|) as real
  {
    hide Interpolate, Steps, Multiple, Samples;
    var r := rates.Ratio();
    hide Rates.Ratio;
    var all := before + input;
    var base := |before| - |st.buffer|;
    var c, d := Due(|before|, r), Due(|all|, r);
    DueMonotone(|before|, |all|, r);
    var data := st.buffer + input;
    assert data == all[base..];
    assert |data| as real - 1.0 - st.position == (|all| as real - 1.0) - Multiple(c, r);
    StepsShift(|all| as real - 1.0, r, c);
    ReferenceGrows(before, input, r);
    SamplesDrop(all, base, st.position, r, d - c);
    assert st.position + base as real == Multiple(c, r);
    GridAdds(c, d - c, r);
  }

  lemma TracksReached(rates: Rates, st: State, before: seq<real>, input: seq<real>)
    requires rates.Valid() && rates.input != rates.output && |input| > 0
    requires Tracks(st, before, rates.Ratio())
    ensures Reached(rates, st, input) >= 0.0
  {
    hide Interpolate, Steps, Multiple;
    PushEmitsDue(rates, st, before, input);
    GridPositive(Steps((|st.buffer| + |input|) as real - 1.0 - st.position, rates.Ratio()), rates.Ratio());
  }

  lemma PushKeepsTracking(rates: Rates, st: State, before: seq<real>, input: seq<real>)
    requires rates.Valid() && rates.input != rates.output && |input| > 0
    requires Tracks(st, before, rates.Ratio())
    requires NoSkip(rates, st, input)
    ensures Tracks(PushState(rates, st, input), before + input, rates.Ratio())
  {
    hide Interpolate, Steps, Multiple;
    PushEmitsDue(rates, st, before, input);
    TracksReached(rates, st, before, input);
    var all := before + input;
    var base := |before| - |st.buffer|;
    var data := st.buffer + input;
    var consumed := Reached(rates, st, input).Floor;
    assert data == all[base..];
    assert data[consumed..] == all[base + consumed..];
  }

  lemma FloorBelow(x: real, n: int)
    requires x < n as real + 1.0
    ensures x.Floor <= n
  {
  }

  /** The grid position after the last due one is less than one step past the last sample. */
  lemma DueStopsEarly(n: nat, r: real)
    requires n > 0 && 0.0 < r <= 2.0
    ensures Multiple(Due(n, r), r) < n as real + 1.0
  {
    hide Steps;
    var d := Due(n, r);
    if d > 0 {
      StepsCharacterised(n as real - 1.0, r, d - 1);
    }
  }

  /** With at most two input samples per output sample, no push can skip. */
  lemma RatioTwoNeverSkips(rates: Rates, st: State, before: seq<real>, input: seq<real>)
    requires rates.Valid() && rates.input != rates.output && |input| > 0
    requires rates.input <= 2.0 * rates.output
    requires Tracks(st, before, rates.Ratio())
    ensures NoSkip(rates, st, input)
  {
    hide Interpolate, Steps, Reached, Due, Multiple;
    var r := rates.Ratio();
    PushEmitsDue(rates, st, before, input);
    DueStopsEarly(|before| + |input|, r);
    FloorBelow(Reached(rates, st, input), |st.buffer| + |input|);
  }

  /** Below ratio two the resampler cannot tell how its input was cut. */
  lemma {:induction false} StreamIsReference(rates: Rates, pieces: seq<seq<real>>)
    requires rates.Valid() && rates.input != rates.output
    requires rates.input <= 2.0 * rates.output
    ensures StreamOutput(rates, pieces) == Reference(Flatten(pieces), rates.Ratio())
    ensures Tracks(StreamState(rates, pieces), Flatten(pieces), rates.Ratio())
  {
    if |pieces| > 0 {
      var earlier, last := pieces[..|pieces| - 1], pieces[|pieces| - 1];
      StreamIsReference(rates, earlier);
      if |last| == 0 {
        assert Flatten(pieces) == Flatten(earlier);
      } else {
        var st := StreamState(rates, earlier);
        PushEmitsDue(rates, st, Flatten(earlier), last);
        RatioTwoNeverSkips(rates, st, Flatten(earlier), last);
        PushKeepsTracking(rates, st, Flatten(earlier), last);
      }
    }
  }

  lemma OneShotIsReference(rates: Rates, input: seq<real>)
    requires rates.Valid() && rates.input != rates.output
    ensures OneShot(rates, input) == Reference(input, rates.Ratio())
    ensures |OneShot(rates, input)| == if |input| == 0 then 0 else Ceiling((|input| - 1) as real / rates.Ratio())
  {
    if |input| > 0 {
      assert Tracks(FRESH, [], rates.Ratio());
      PushEmitsDue(rates, FRESH, [], input);
      assert [] + input == input;
      assert Reference([], rates.Ratio()) == [];
      StepsIsCeiling((|input| - 1) as real, rates.Ratio());
    }
  }

  lemma {:induction false} EqualRatesPassThrough(rates: Rates, pieces: seq<seq<real>>)
    requires rates.Valid() && rates.input == rates.output
    ensures StreamOutput(rates, pieces) == Flatten(pieces)
  {
    if |pieces| > 0 {
      EqualRatesPassThrough(rates, pieces[..|pieces| - 1]);
    }
  }

  // ---- above ratio two ----

  /** The number of grid positions that fit below one is the first overrun of the excess over two. */
  function Overrun(excess: real): nat
    requires excess > 0.0
  {
    StepsCharacterised(1.0, excess, 0);
    Steps(1.0, excess) - 1
  }

  lemma OverrunCrossesOne(excess: real)
    requires excess > 0.0
    ensures Multiple(Overrun(excess), excess) < 1.0 <= Multiple(Overrun(excess) + 1, excess)
  {
    hide Multiple, Steps;
    StepsCharacterised(1.0, excess, Overrun(excess));
    StepsCharacterised(1.0, excess, Overrun(excess) + 1);
  }

  /** Splits a ratio above two into two plus its excess. */
  lemma {:induction false} GridSplits(k: nat, excess: real)
    ensures Multiple(k, 2.0 + excess) == (2 * k) as real + Multiple(k, excess)
  {
    if k > 0 {
      GridSplits(k - 1, excess);
    }
  }

  /** Length of a first piece that makes the resampler run past its data. */
  function SkipLength(rates: Rates): nat
    requires rates.Valid() && rates.input > 2.0 * rates.output
  {
    2 * Overrun(rates.Ratio() - 2.0) + 2
  }

  /** After `SkipLength` samples the next position is already past one more sample. */
  lemma SkipLengthOverruns(rates: Rates)
    requires rates.Valid() && rates.input > 2.0 * rates.output
    ensures var r, n := rates.Ratio(), SkipLength(rates);
            && n >= 2
            && Due(n, r) == Due(n + 2, r) > 0
            && Multiple(Due(n, r), r) >= (n + 1) as real
  {
    hide Steps, Multiple;
    var r := rates.Ratio();
    var k, n := Overrun(r - 2.0), SkipLength(rates);
    hide Rates.Ratio;
    OverrunCrossesOne(r - 2.0);
    GridSplits(k, r - 2.0);
    GridSplits(k + 1, r - 2.0);
    assert 2.0 + (r - 2.0) == r;
    StepsCharacterised(n as real - 1.0, r, k);
    StepsCharacterised(n as real - 1.0, r, k + 1);
    StepsCharacterised(n as real + 1.0, r, k);
    StepsCharacterised(n as real + 1.0, r, k + 1);
  }

  /** Above ratio two, cutting after `SkipLength` samples yields at least one output too many. */
  lemma CutAddsOutput(rates: Rates, head: seq<real>, tail: seq<real>)
    requires rates.Valid() && rates.input > 2.0 * rates.output
    requires |head| == SkipLength(rates) && |tail| == 2
    ensures |StreamOutput(rates, [head, tail])| > |OneShot(rates, head + tail)|
  {
    hide Mix, Interpolate, Steps, Samples, Multiple;
    var r := rates.Ratio();
    hide Rates.Ratio;
    SkipLengthOverruns(rates);
    OneShotIsReference(rates, head + tail);
    OneShotIsReference(rates, head);
    var st := PushState(rates, FRESH, head);
    assert Reached(rates, FRESH, head) == Multiple(Due(|head|, r), r);
    assert st.buffer == [] && 0.0 <= st.position < 1.0;
    StepsPositive(1.0 - st.position, r);
    PushOutputSize(rates, st, tail);
    assert (|st.buffer| + |tail|) as real - 1.0 - st.position == 1.0 - st.position;
    assert |PushOutput(rates, st, tail)| >= 1;
    StreamOfTwo(rates, head, tail);
  }

  lemma StreamOfTwo(rates: Rates, head: seq<real>, tail: seq<real>)
    requires rates.Valid()
    ensures StreamOutput(rates, [head, tail])
         == PushOutput(rates, FRESH, head) + PushOutput(rates, PushState(rates, FRESH, head), tail)
    ensures Flatten([head, tail]) == head + tail
  {
    hide PushOutput, PushState;
    assert [head, tail][..1] == [head];
    assert [head][..0] == [];
    assert StreamOutput(rates, [head]) == [] + PushOutput(rates, FRESH, head);
    assert StreamState(rates, [head]) == PushState(rates, FRESH, head);
    assert Flatten([head]) == [] + head;
  }

  /** Streaming equals one push for every input and every cut exactly when the ratio is at most two. */
  lemma CutIndependentIffRatioAtMostTwo(rates: Rates)
    requires rates.Valid()
    ensures (forall pieces: seq<seq<real>> :: StreamOutput(rates, pieces) == OneShot(rates, Flatten(pieces)))
       <==> rates.input <= 2.0 * rates.output
  {
    if rates.input <= 2.0 * rates.output {
      forall pieces: seq<seq<real>>
        ensures StreamOutput(rates, pieces) == OneShot(rates, Flatten(pieces))
      {
        if rates.input == rates.output {
          EqualRatesPassThrough(rates, pieces);
        } else {
          StreamIsReference(rates, pieces);
          OneShotIsReference(rates, Flatten(pieces));
        }
      }
    } else {
      var head := seq(SkipLength(rates), i => 0.0);
      var tail := [0.0, 0.0];
      CutAddsOutput(rates, head, tail);
      StreamOfTwo(rates, head, tail);
      assert StreamOutput(rates, [head, tail]) != OneShot(rates, Flatten([head, tail]));
    }
  }

  /** The common 48 kHz microphone with a 16 kHz provider: 86 outputs instead of 85. */
  lemma FortyEightToSixteen(head: seq<real>, tail: seq<real>)
    requires |head| == |tail| == 128
    ensures |StreamOutput(Rates(48000.0, 16000.0), [head, tail])| == 86
    ensures |OneShot(Rates(48000.0, 16000.0), head + tail)| == 85
  {
    hide Interpolate, Steps, Multiple;
    var rates := Rates(48000.0, 16000.0);
    assert rates.Ratio() == 3.0;
    hide Rates.Ratio;
    StepsIsCeiling(127.0, 3.0);
    StepsIsCeiling(255.0, 3.0);
    GridIsProduct(43, 3.0);
    PushOutputSize(rates, FRESH, head);
    PushOutputSize(rates, FRESH, head + tail);
    var st := PushState(rates, FRESH, head);
    assert Reached(rates, FRESH, head) == 129.0;
    assert st == State([], 0.0);
    PushOutputSize(rates, st, tail);
    StreamOfTwo(rates, head, tail);
  }

  // ---- straight lines ----

  /** The samples lie on a straight line. */
  ghost predicate OnLine(data: seq<real>, level: real, slope: real) {
    forall i :: 0 <= i < |data| ==> data[i] == level + slope * i as real
  }

  lemma MixOnLine(level: real, slope: real, left: int, fraction: real)
    ensures Mix(level + slope * left as real, level + slope * (left + 1) as real, fraction)
         == level + slope * (left as real + fraction)
  {
    assert level + slope * (left + 1) as real - (level + slope * left as real) == slope;
    assert slope * (left as real + fraction) == slope * left as real + slope * fraction;
  }

  /** Between two samples the interpolation is the straight line through them. */
  lemma InterpolationIsStraight(data: seq<real>, position: real, level: real, slope: real)
    requires 0.0 <= position && position + 1.0 < |data| as real
    requires data[position.Floor] == level + slope * position.Floor as real
    requires data[position.Floor + 1] == level + slope * (position.Floor + 1) as real
    ensures Interpolate(data, position) == level + slope * position
  {
    MixOnLine(level, slope, position.Floor, position - position.Floor as real);
    InterpolateInside(data, position);
    hide Mix, Interpolate;
    assert position.Floor as real + (position - position.Floor as real) == position;
  }

  /**
   A straight line is resampled exactly: however it is cut up, at most two to one, output k lies where the line is at
   input position k times the ratio.
   */
  lemma LineIsResampledExactly(rates: Rates, pieces: seq<seq<real>>, level: real, slope: real, k: nat)
    requires rates.Valid() && rates.input != rates.output && rates.input <= 2.0 * rates.output
    requires OnLine(Flatten(pieces), level, slope) && k < |StreamOutput(rates, pieces)|
    ensures StreamOutput(rates, pieces)[k] == level + slope * (k as real * rates.Ratio())
  {
    hide *;
    StreamIsReference(rates, pieces);
    ReferenceAt(Flatten(pieces), rates.Ratio(), k);
    GridIsProduct(k, rates.Ratio());
    LineAt(Flatten(pieces), Multiple(k, rates.Ratio()), level, slope);
  }

  /** An output that is due is the interpolation at its grid position, which has a right neighbour. */
  lemma ReferenceAt(input: seq<real>, r: real, k: nat)
    requires r > 0.0 && k < |Reference(input, r)|
    ensures Reference(input, r)[k] == Interpolate(input, Multiple(k, r))
    ensures 0.0 <= Multiple(k, r) && Multiple(k, r) + 1.0 < |input| as real
  {
    GridPositive(k, r);
    StepsCharacterised(|input| as real - 1.0, r, k);
    hide Interpolate, Multiple, Steps;
  }

  lemma LineAt(data: seq<real>, position: real, level: real, slope: real)
    requires OnLine(data, level, slope) && 0.0 <= position && position + 1.0 < |data| as real
    ensures Interpolate(data, position) == level + slope * position
  {
    hide Interpolate;
    InterpolationIsStraight(data, position, level, slope);
  }
}
