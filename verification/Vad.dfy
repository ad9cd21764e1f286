/** The energy voice activity detector. */
module Vad {
  import opened Common
  import opened Pcm

  datatype Config = Config(
    speechThreshold: real, releaseThreshold: real, speechStartMs: nat, endSilenceMs: nat, maxUtteranceMs: nat)
  {
    predicate Valid() {
      && 0.0 < releaseThreshold < speechThreshold < 1.0
      && 20 <= speechStartMs <= 2000 && 100 <= endSilenceMs <= 5000 && 1000 <= maxUtteranceMs <= 600000
    }
  }

  /** One observed frame on the unit scale: its mean square, its peak, and its duration. */
  datatype Frame = Frame(meanSquare: real, peak: real, ms: real)

  datatype Verdict = Silence | SpeechCandidate | Speaking | SpeechEnded | MaxDuration

  datatype State = State(speaking: bool, ended: bool, candidateMs: real, utteranceMs: real, silenceMs: real)

  datatype Observation = Observation(frame: Frame, verdict: Verdict, utteranceMs: real, silenceMs: real,
                                     speechStarted: bool, speechEnded: bool, autoCommit: bool)

  datatype VadError = BadRate | BadChannels | EmptyFrame | Misaligned

  const RESET := State(false, false, 0.0, 0.0, 0.0)

  // ---- products of reals, one law at a time ----

  function Times(x: real, y: real): real {
    x * y
  }

  lemma ProductsOrder(x: real, y: real, z: real)
    requires x <= y && z >= 0.0
    ensures Times(x, z) <= Times(y, z)
    ensures x < y && z > 0.0 ==> Times(x, z) < Times(y, z)
  {
  }

  lemma ProductsCommute(x: real, y: real)
    ensures Times(x, y) == Times(y, x)
  {
  }

  lemma UnitProducts(x: real)
    ensures Times(1.0, x) == x && Times(0.0, x) == 0.0 && Times(x, x) == Times(-x, -x)
  {
  }

  lemma SquaresOrder(x: real, y: real)
    requires 0.0 <= x && 0.0 <= y
    ensures x <= y <==> Times(x, x) <= Times(y, y)
  {
    hide Times;
    var low, high := if x <= y then x else y, if x <= y then y else x;
    ProductsOrder(low, high, low);
    ProductsCommute(low, high);
    ProductsOrder(low, high, high);
  }

  lemma UnitSquare(x: real)
    requires -1.0 <= x <= 1.0
    ensures 0.0 <= Times(x, x) <= 1.0
    ensures Times(x, x) == 0.0 <==> x == 0.0
  {
    hide Times;
    var y := if x < 0.0 then -x else x;
    UnitProducts(x);
    UnitProducts(y);
    ProductsOrder(y, 1.0, y);
    ProductsOrder(0.0, y, y);
  }

  /** Comparing squares is comparing the root mean square with the threshold. */
  predicate Loud(c: Config, f: Frame) {
    f.meanSquare >= Times(c.speechThreshold, c.speechThreshold)
  }

  predicate Quiet(c: Config, f: Frame) {
    f.meanSquare <= Times(c.releaseThreshold, c.releaseThreshold)
  }

  lemma LoudIsNotQuiet(c: Config, f: Frame)
    requires c.Valid() && Loud(c, f)
    ensures !Quiet(c, f)
  {
    SquaresOrder(c.speechThreshold, c.releaseThreshold);
    hide Times;
  }

  function Step(c: Config, s: State, f: Frame): State {
    if s.ended then s
    else if !s.speaking then
      if Loud(c, f) then
        var candidate := s.candidateMs + f.ms;
        if candidate >= c.speechStartMs as real
        then State(true, false, candidate, candidate, 0.0)
        else s.(candidateMs := candidate)
      else s.(candidateMs := 0.0)
    else
      var utterance := s.utteranceMs + f.ms;
      var silence := if Quiet(c, f) then s.silenceMs + f.ms else 0.0;
      s.(utteranceMs := utterance, silenceMs := silence,
         ended := utterance >= c.maxUtteranceMs as real || silence >= c.endSilenceMs as real)
  }

  function Report(c: Config, s: State, f: Frame): Observation {
    var t := Step(c, s, f);
    var verdict :=
      if s.ended then SpeechEnded
      else if !s.speaking then (if t.speaking then Speaking else if Loud(c, f) then SpeechCandidate else Silence)
      else if t.utteranceMs >= c.maxUtteranceMs as real then MaxDuration
      else if t.ended then SpeechEnded
      else Speaking;
    Observation(f, verdict, t.utteranceMs, t.silenceMs, t.speaking && !s.speaking, t.ended, t.ended)
  }

  function Fold(c: Config, history: seq<Frame>): State {
    if |history| == 0 then RESET
    else Step(c, Fold(c, history[..|history| - 1]), history[|history| - 1])
  }

  // ---- closed forms of the history ----

  function Duration(history: seq<Frame>): real {
    if |history| == 0 then 0.0 else Duration(history[..|history| - 1]) + history[|history| - 1].ms
  }

  /** Number of frames in the loud run that ends the history. */
  function LoudRun(c: Config, history: seq<Frame>): (n: nat)
    ensures n <= |history|
  {
    if |history| > 0 && Loud(c, history[|history| - 1]) then LoudRun(c, history[..|history| - 1]) + 1 else 0
  }

  function QuietRun(c: Config, history: seq<Frame>): (n: nat)
    ensures n <= |history|
  {
    if |history| > 0 && Quiet(c, history[|history| - 1]) then QuietRun(c, history[..|history| - 1]) + 1 else 0
  }

  /** Duration of the last n frames. */
  function LastMs(history: seq<Frame>, n: nat): real
    requires n <= |history|
  {
    Duration(history[|history| - n..])
  }

  /** The loud run that ends after frame i is long enough to be speech. */
  predicate StartsAt(c: Config, history: seq<Frame>, i: nat)
    requires i < |history|
  {
    LastMs(history[..i + 1], LoudRun(c, history[..i + 1])) >= c.speechStartMs as real
  }

  /** The first frame at which speech is recognised. */
  function StartIndex(c: Config, history: seq<Frame>): Option<nat> {
    if |history| == 0 then None
    else
      var n := |history| - 1;
      match StartIndex(c, history[..n])
      case Some(i) => Some(i)
      case None => if StartsAt(c, history, n) then Some(n) else None
  }

  /** The frame at which the loud run recognised at frame i began. */
  function RunBegin(c: Config, history: seq<Frame>, i: nat): nat
    requires i < |history|
  {
    i + 1 - LoudRun(c, history[..i + 1])
  }

  /** At frame j the utterance that began at `start` has reached a limit. */
  predicate LimitAt(c: Config, history: seq<Frame>, start: nat, j: nat)
    requires start <= j < |history|
  {
    || Duration(history[start..j + 1]) >= c.maxUtteranceMs as real
    || LastMs(history[..j + 1], QuietRun(c, history[..j + 1])) >= c.endSilenceMs as real
  }

  /** The first frame after the start at which a limit is reached. */
  function EndIndex(c: Config, history: seq<Frame>): (r: Option<nat>)
    ensures r.Some? ==> r.value < |history|
  {
    if |history| == 0 then None
    else
      var n := |history| - 1;
      match EndIndex(c, history[..n])
      case Some(j) => Some(j)
      case None =>
        StartIndexSound(c, history[..n]);
        if StartIndex(c, history[..n]).Some? && LimitAt(c, history, RunBegin(c, history, StartIndex(c, history[..n]).value), n)
        then Some(n) else None
  }

  // ---- the indices are what their names say ----

  lemma {:induction false} StartIndexSound(c: Config, history: seq<Frame>)
    ensures StartIndex(c, history).Some? ==>
              var i := StartIndex(c, history).value;
              i < |history| && StartsAt(c, history, i) && forall k: nat :: k < i ==> !StartsAt(c, history, k)
    ensures StartIndex(c, history).None? ==> forall k: nat :: k < |history| ==> !StartsAt(c, history, k)
  {
    if |history| > 0 {
      var n := |history| - 1;
      StartIndexSound(c, history[..n]);
      forall k: nat | k < n
        ensures StartsAt(c, history, k) == StartsAt(c, history[..n], k)
      {
        assert history[..n][..k + 1] == history[..k + 1];
      }
    }
  }

  lemma {:induction false} StartIndexStable(c: Config, history: seq<Frame>, n: nat)
    requires n <= |history| && StartIndex(c, history[..n]).Some?
    ensures StartIndex(c, history) == StartIndex(c, history[..n])
    decreases |history|
  {
    if n < |history| {
      assert history[..|history| - 1][..n] == history[..n];
      StartIndexStable(c, history[..|history| - 1], n);
    } else {
      assert history[..n] == history;
    }
  }

  lemma RunBeginIgnoresLater(c: Config, history: seq<Frame>, n: nat, i: nat)
    requires i < n <= |history|
    ensures RunBegin(c, history[..n], i) == RunBegin(c, history, i)
  {
    assert history[..n][..i + 1] == history[..i + 1];
  }

  /** The end is the first frame after the start that meets a limit. */
  lemma {:induction false} EndIndexSound(c: Config, history: seq<Frame>)
    ensures EndIndex(c, history).Some? ==>
              var j := EndIndex(c, history).value;
              && StartIndex(c, history).Some? && StartIndex(c, history).value < j < |history|
              && LimitAt(c, history, RunBegin(c, history, StartIndex(c, history).value), j)
              && forall k: nat :: StartIndex(c, history).value < k < j ==>
                   !LimitAt(c, history, RunBegin(c, history, StartIndex(c, history).value), k)
    ensures EndIndex(c, history).None? && StartIndex(c, history).Some? ==>
              StartIndex(c, history).value < |history|
              && forall k: nat :: StartIndex(c, history).value < k < |history| ==>
                   !LimitAt(c, history, RunBegin(c, history, StartIndex(c, history).value), k)
  {
    hide LimitAt;
    if |history| > 0 {
      var n := |history| - 1;
      EndIndexSound(c, history[..n]);
      StartIndexSound(c, history[..n]);
      if StartIndex(c, history[..n]).Some? {
        var i := StartIndex(c, history[..n]).value;
        StartIndexStable(c, history, n);
        RunBeginIgnoresLater(c, history, n, i);
        var start := RunBegin(c, history, i);
        forall k: nat | i < k < n
          ensures LimitAt(c, history, start, k) == LimitAt(c, history[..n], start, k)
        {
          LimitIgnoresLater(c, history, n, start, k);
        }
        if EndIndex(c, history[..n]).Some? {
          var j := EndIndex(c, history[..n]).value;
          LimitIgnoresLater(c, history, n, start, j);
        }
      }
    }
  }

  lemma LimitIgnoresLater(c: Config, history: seq<Frame>, n: nat, start: nat, k: nat)
    requires start <= k < n <= |history|
    ensures LimitAt(c, history, start, k) == LimitAt(c, history[..n], start, k)
  {
    assert history[..n][..k + 1] == history[..k + 1];
    assert history[..n][start..k + 1] == history[start..k + 1];
  }

  lemma LastMsSnoc(history: seq<Frame>, n: nat)
    requires n < |history|
    ensures LastMs(history, n + 1) == LastMs(history[..|history| - 1], n) + history[|history| - 1].ms
  {
    var tail := history[|history| - (n + 1)..];
    assert tail[..n] == history[..|history| - 1][|history| - 1 - n..];
  }

  /** State of a live detector in closed form. */
  function Closed(c: Config, history: seq<Frame>): State
    requires EndIndex(c, history).None?
  {
    StartIndexSound(c, history);
    match StartIndex(c, history)
    case None => State(false, false, LastMs(history, LoudRun(c, history)), 0.0, 0.0)
    case Some(i) =>
      var start := RunBegin(c, history, i);
      State(true, false, Duration(history[start..i + 1]), Duration(history[start..]),
            LastMs(history, QuietRun(c, history)))
  }

  /**
   The counters equal closed forms of the history: before the start, the candidate counter is the
   trailing loud run; after it, the utterance is everything since that run began and the silence is
   the trailing quiet run; at the end index the detector latches and its counters freeze.
   */
  lemma {:induction false} CountersAreClosedForms(c: Config, history: seq<Frame>)
    requires c.Valid()
    ensures EndIndex(c, history).None? ==> Fold(c, history) == Closed(c, history)
    ensures EndIndex(c, history).Some? ==>
              var j := EndIndex(c, history).value;
              Fold(c, history) == Fold(c, history[..j + 1]) && Fold(c, history).ended
  {
    if |history| > 0 {
      var n := |history| - 1;
      CountersAreClosedForms(c, history[..n]);
      if EndIndex(c, history[..n]).Some? {
        var j := EndIndex(c, history[..n]).value;
        assert history[..n][..j + 1] == history[..j + 1];
      } else {
        LiveStep(c, history);
        assert history[..n + 1] == history;
      }
    }
  }

  lemma LiveStep(c: Config, history: seq<Frame>)
    requires c.Valid() && |history| > 0
    requires EndIndex(c, history[..|history| - 1]).None?
    requires Fold(c, history[..|history| - 1]) == Closed(c, history[..|history| - 1])
    ensures EndIndex(c, history).None? ==> Fold(c, history) == Closed(c, history)
    ensures EndIndex(c, history).Some? ==> EndIndex(c, history).value == |history| - 1 && Fold(c, history).ended
  {
    var n := |history| - 1;
    var before, f := history[..n], history[n];
    StartIndexSound(c, before);
    match StartIndex(c, before)
    case None => NotYetSpeaking(c, history);
    case Some(_) => AlreadySpeaking(c, history);
  }

  lemma EmptyTail(history: seq<Frame>)
    ensures LastMs(history, 0) == 0.0
  {
  }

  lemma RunIsTail(c: Config, history: seq<Frame>)
    requires |history| > 0
    ensures var n := |history| - 1;
            && Duration(history[RunBegin(c, history, n)..n + 1]) == LastMs(history, LoudRun(c, history))
            && Duration(history[RunBegin(c, history, n)..]) == LastMs(history, LoudRun(c, history))
  {
    var n := |history| - 1;
    assert history[..n + 1] == history;
    assert history[RunBegin(c, history, n)..n + 1] == history[RunBegin(c, history, n)..];
  }

  lemma StartsNow(c: Config, history: seq<Frame>)
    requires |history| > 0 && StartIndex(c, history[..|history| - 1]).None?
    ensures StartIndex(c, history)
         == if LastMs(history, LoudRun(c, history)) >= c.speechStartMs as real then Some(|history| - 1) else None
  {
    assert history[..|history| - 1 + 1] == history;
  }

  lemma NotYetSpeaking(c: Config, history: seq<Frame>)
    requires c.Valid() && |history| > 0
    requires EndIndex(c, history[..|history| - 1]).None? && StartIndex(c, history[..|history| - 1]).None?
    requires Fold(c, history[..|history| - 1]) == Closed(c, history[..|history| - 1])
    ensures EndIndex(c, history).None? && Fold(c, history) == Closed(c, history)
  {
    hide Loud, Quiet, LimitAt, LastMs, Duration, RunBegin, StartIndex, StartsAt;
    var n := |history| - 1;
    var before, f := history[..n], history[n];
    StartsNow(c, history);
    EmptyTail(history);
    if Loud(c, f) {
      LoudIsNotQuiet(c, f);
      LastMsSnoc(history, LoudRun(c, before));
      EmptyTail(history);
      RunIsTail(c, history);
    }
  }

  /** One frame later, a started and unfinished utterance has grown by that frame. */
  lemma UtteranceGrows(c: Config, history: seq<Frame>, i: nat)
    requires i < |history| - 1
    ensures var before := history[..|history| - 1];
            var start := RunBegin(c, history, i);
            && RunBegin(c, before, i) == start
            && before[start..i + 1] == history[start..i + 1]
            && Duration(history[start..]) == Duration(before[start..]) + history[|history| - 1].ms
            && Duration(history[start..|history|]) == Duration(history[start..])
            && history[..|history|] == history
  {
    var n := |history| - 1;
    var before := history[..n];
    assert before[..i + 1] == history[..i + 1];
    var start := RunBegin(c, history, i);
    assert before[start..i + 1] == history[start..i + 1];
    assert history[start..][..n - start] == before[start..];
    assert history[start..|history|] == history[start..];
  }

  lemma SilenceGrows(c: Config, history: seq<Frame>)
    requires |history| > 0
    ensures LastMs(history, QuietRun(c, history))
         == if Quiet(c, history[|history| - 1])
            then LastMs(history[..|history| - 1], QuietRun(c, history[..|history| - 1])) + history[|history| - 1].ms
            else 0.0
  {
    hide Quiet, LastMs;
    var n := |history| - 1;
    if Quiet(c, history[n]) {
      LastMsSnoc(history, QuietRun(c, history[..n]));
    } else {
      EmptyTail(history);
    }
  }

  lemma EndsNow(c: Config, history: seq<Frame>)
    requires |history| > 0
    requires EndIndex(c, history[..|history| - 1]).None? && StartIndex(c, history[..|history| - 1]).Some?
    ensures var n := |history| - 1;
            && StartIndex(c, history[..n]).value < n
            && RunBegin(c, history, StartIndex(c, history[..n]).value) <= n
            && EndIndex(c, history) == if LimitAt(c, history, RunBegin(c, history, StartIndex(c, history[..n]).value), n)
                                       then Some(n) else None
  {
    StartIndexSound(c, history[..|history| - 1]);
    hide StartIndex, LimitAt, StartsAt;
  }

  lemma LimitNow(c: Config, history: seq<Frame>, start: nat)
    requires 0 <= start < |history|
    ensures LimitAt(c, history, start, |history| - 1)
       <==> || Duration(history[start..]) >= c.maxUtteranceMs as real
            || LastMs(history, QuietRun(c, history)) >= c.endSilenceMs as real
  {
    hide Duration, LastMs, QuietRun;
    assert history[..|history| - 1 + 1] == history;
    assert history[start..|history| - 1 + 1] == history[start..];
  }

  lemma FoldStep(c: Config, history: seq<Frame>)
    requires |history| > 0
    ensures Fold(c, history) == Step(c, Fold(c, history[..|history| - 1]), history[|history| - 1])
  {
    hide Step;
  }

  /** A frame while speaking: the utterance grows, the silence grows or starts again, and either may reach its limit. */
  lemma SpeakingStep(c: Config, s: State, f: Frame)
    requires s.speaking && !s.ended
    ensures var silence := if Quiet(c, f) then s.silenceMs + f.ms else 0.0;
            Step(c, s, f) == State(true, s.utteranceMs + f.ms >= c.maxUtteranceMs as real || silence >= c.endSilenceMs as real,
                                   s.candidateMs, s.utteranceMs + f.ms, silence)
  {
    hide Quiet, Loud;
  }

  lemma ClosedSpeaking(c: Config, history: seq<Frame>)
    requires EndIndex(c, history).None? && StartIndex(c, history).Some?
    ensures var i := StartIndex(c, history).value;
            && i < |history| && RunBegin(c, history, i) <= i + 1
            && Closed(c, history) == State(true, false, Duration(history[RunBegin(c, history, i)..i + 1]),
                                           Duration(history[RunBegin(c, history, i)..]), LastMs(history, QuietRun(c, history)))
  {
    StartIndexSound(c, history);
    hide Duration, LastMs, QuietRun, StartIndex, EndIndex, StartsAt;
  }

  lemma AlreadySpeaking(c: Config, history: seq<Frame>)
    requires c.Valid() && |history| > 0
    requires EndIndex(c, history[..|history| - 1]).None? && StartIndex(c, history[..|history| - 1]).Some?
    requires Fold(c, history[..|history| - 1]) == Closed(c, history[..|history| - 1])
    ensures EndIndex(c, history).None? ==> Fold(c, history) == Closed(c, history)
    ensures EndIndex(c, history).Some? ==> EndIndex(c, history).value == |history| - 1 && Fold(c, history).ended
  {
    hide *;
    var n := |history| - 1;
    var before := history[..n];
    var i := StartIndex(c, before).value;
    StartIndexSound(c, before);
    StartIndexStable(c, history, n);
    UtteranceGrows(c, history, i);
    SilenceGrows(c, history);
    EndsNow(c, history);
    LimitNow(c, history, RunBegin(c, history, i));
    ClosedSpeaking(c, before);
    SpeakingStep(c, Fold(c, before), history[n]);
    FoldStep(c, history);
    if EndIndex(c, history).None? {
      ClosedSpeaking(c, history);
    }
  }

  /** Speech is announced at the start index alone; the end is announced from the end index on, never before a start. */
  lemma AnnouncedOnTime(c: Config, history: seq<Frame>, f: Frame)
    requires c.Valid()
    ensures var all := history + [f];
            var report := Report(c, Fold(c, history), f);
            && (report.speechStarted <==> StartIndex(c, all) == Some(|history|) && EndIndex(c, history).None?)
            && (report.speechEnded <==> EndIndex(c, all).Some?)
            && (report.autoCommit <==> EndIndex(c, all).Some?)
            && (EndIndex(c, all).Some? ==> StartIndex(c, all).Some? && StartIndex(c, all).value < EndIndex(c, all).value)
  {
    var all := history + [f];
    assert all[..|history|] == history;
    CountersAreClosedForms(c, history);
    CountersAreClosedForms(c, all);
    StartIndexSound(c, history);
    StartIndexSound(c, all);
    EndIndexSound(c, history);
    EndIndexSound(c, all);
  }

  /** For a frame of the given root mean square, loud and quiet are the comparisons with the two thresholds. */
  lemma LoudAndQuietAreThresholds(c: Config, f: Frame, rms: real)
    requires c.Valid() && rms >= 0.0 && rms * rms == f.meanSquare
    ensures Loud(c, f) <==> rms >= c.speechThreshold
    ensures Quiet(c, f) <==> rms <= c.releaseThreshold
  {
    SquaresOrder(c.speechThreshold, rms);
    SquaresOrder(rms, c.releaseThreshold);
  }

  /**
   What a frame is reported as: before the start, speech to be or silence by its own loudness; at the start and during
   the utterance, speaking; at the end, by the limit that was met; and after it, ended.
   */
  lemma VerdictByHistory(c: Config, history: seq<Frame>, f: Frame)
    requires c.Valid()
    ensures var all, report := history + [f], Report(c, Fold(c, history), f);
            report.frame == f && report.utteranceMs == Fold(c, all).utteranceMs && report.silenceMs == Fold(c, all).silenceMs
    ensures var all, verdict := history + [f], Report(c, Fold(c, history), f).verdict;
            if EndIndex(c, history).Some? then verdict == SpeechEnded
            else if StartIndex(c, all).None? then verdict == (if Loud(c, f) then SpeechCandidate else Silence)
            else if EndIndex(c, all).None? then verdict == Speaking
            else
              var i := StartIndex(c, all).value;
              i < |all|
              && verdict == (if Duration(all[RunBegin(c, all, i)..]) >= c.maxUtteranceMs as real then MaxDuration else SpeechEnded)
  {
    var all := history + [f];
    assert all[..|history|] == history;
    CountersAreClosedForms(c, history);
    CountersAreClosedForms(c, all);
    StartIndexSound(c, history);
    StartIndexSound(c, all);
    EndIndexSound(c, history);
    EndIndexSound(c, all);
    if EndIndex(c, history).None? && StartIndex(c, history).Some? {
      AlreadySpeaking(c, all);
      StartIndexStable(c, all, |history|);
      UtteranceGrows(c, all, StartIndex(c, history).value);
    }
    hide Loud, Quiet, StartsAt, LimitAt, LastMs, Duration, QuietRun, LoudRun, RunBegin, EndIndex, StartIndex, Fold;
  }

  // ---- the detector ----

  function Abs(x: int): nat {
    if x < 0 then -x else x
  }

  function Peak(samples: seq<int>): nat {
    if |samples| == 0 then 0
    else
      var n := |samples| - 1;
      var before, last := Peak(samples[..n]), Abs(samples[n]);
      if before >= last then before else last
  }

  function Energy(samples: seq<int>): real {
    if |samples| == 0 then 0.0
    else
      var n := |samples| - 1;
      Energy(samples[..n]) + Times(samples[n] as real / 32768.0, samples[n] as real / 32768.0)
  }

  /** The peak is the loudest sample, whatever its sign. */
  lemma {:induction false} PeakIsLoudest(samples: seq<int>)
    ensures forall i :: 0 <= i < |samples| ==> Abs(samples[i]) <= Peak(samples)
    ensures samples != [] ==> exists i :: 0 <= i < |samples| && Abs(samples[i]) == Peak(samples)
    ensures samples == [] ==> Peak(samples) == 0
  {
    hide Abs;
    if |samples| > 0 {
      var n := |samples| - 1;
      PeakIsLoudest(samples[..n]);
      assert forall i :: 0 <= i < n ==> samples[..n][i] == samples[i];
      if n > 0 && Peak(samples) == Peak(samples[..n]) {
        var i :| 0 <= i < n && Abs(samples[..n][i]) == Peak(samples[..n]);
        assert Abs(samples[i]) == Peak(samples);
      } else {
        assert n == 0 ==> Peak(samples[..n]) == 0;
        assert Abs(samples[n]) == Peak(samples);
      }
    }
  }

  /** The sum of the squares of integer samples. */
  function SquareSum(samples: seq<int>): int {
    if |samples| == 0 then 0 else SquareSum(samples[..|samples| - 1]) + samples[|samples| - 1] * samples[|samples| - 1]
  }

  lemma ScaledSquare(sample: int)
    ensures Times(sample as real / 32768.0, sample as real / 32768.0) * 1073741824.0 == (sample * sample) as real
  {
    var x := sample as real;
    assert x / 32768.0 * 32768.0 == x;
    assert (x / 32768.0) * (x / 32768.0) * 1073741824.0 == (x / 32768.0 * 32768.0) * (x / 32768.0 * 32768.0);
  }

  /** The energy is the sum of the squares on the unit scale. */
  lemma {:induction false} EnergyIsSumOfSquares(samples: seq<int>)
    ensures Energy(samples) * 1073741824.0 == SquareSum(samples) as real
  {
    if |samples| > 0 {
      var n := |samples| - 1;
      EnergyIsSumOfSquares(samples[..n]);
      ScaledSquare(samples[n]);
      hide Times;
    }
  }

  function Check(audio: seq<Byte>, rate: int, channels: int): Option<VadError> {
    if rate <= 0 then Some(BadRate)
    else if channels != 1 && channels != 2 then Some(BadChannels)
    else if |audio| == 0 then Some(EmptyFrame)
    else if |audio| % (2 * channels) != 0 then Some(Misaligned)
    else None
  }

  /** A frame is measured exactly when its rate is positive, it has one or two channels, and its bytes are whole samples of them. */
  lemma CheckedIff(audio: seq<Byte>, rate: int, channels: int)
    ensures Check(audio, rate, channels).None? <==>
              rate > 0 && |audio| > 0 && ((channels == 1 && |audio| % 2 == 0) || (channels == 2 && |audio| % 4 == 0))
  {
  }

  lemma CheckedIsWholeFrames(audio: seq<Byte>, rate: int, channels: int)
    requires Check(audio, rate, channels).None?
    ensures |audio| % 2 == 0 && |audio| / 2 > 0 && |audio| / 2 / channels > 0
  {
    if channels == 2 {
      assert |audio| % 4 == 0;
    }
  }

  function FrameOf(audio: seq<Byte>, rate: int, channels: int): Frame
    requires Check(audio, rate, channels).None?
  {
    CheckedIsWholeFrames(audio, rate, channels);
    var samples := Unpack(audio);
    var peak := Peak(samples) as real / 32768.0;
    Frame(Energy(samples) / |samples| as real,
          if peak < 1.0 then peak else 1.0,
          (|samples| / channels) as real / rate as real * 1000.0)
  }

  /** A frame of n samples a channel lasts n divided by the rate, in thousandths; its mean square is that of its samples. */
  lemma FrameMeasures(audio: seq<Byte>, rate: int, channels: int, n: nat)
    requires Check(audio, rate, channels).None? && |audio| == 2 * (if channels == 1 then n else n + n)
    ensures rate > 0 && |Unpack(audio)| > 0
    ensures FrameOf(audio, rate, channels).ms == n as real / rate as real * 1000.0
    ensures FrameOf(audio, rate, channels).meanSquare == Energy(Unpack(audio)) / |Unpack(audio)| as real
  {
    hide Energy, Unpack, Peak;
    if channels == 1 {
      assert |Unpack(audio)| / 1 == n;
    } else {
      assert (n + n) / 2 == n;
    }
  }

  /** Silence has no energy, the energy never passes full scale, and neither does the mean square. */
  lemma {:induction false} EnergyBounds(samples: seq<int>)
    requires forall sample | sample in samples :: IsInt16(sample)
    ensures 0.0 <= Energy(samples) <= |samples| as real
    ensures Energy(samples) == 0.0 <==> forall sample | sample in samples :: sample == 0
  {
    hide IsInt16, Times;
    if |samples| > 0 {
      var n := |samples| - 1;
      assert IsInt16(samples[n]);
      EnergyBounds(samples[..n]);
      SampleSquare(samples[n]);
      assert samples == samples[..n] + [samples[n]];
      assert forall sample | sample in samples :: sample in samples[..n] || sample == samples[n];
      assert samples[n] in samples;
      assert forall sample | sample in samples[..n] :: sample in samples;
      assert |samples| as real == n as real + 1.0;
    }
  }

  lemma SampleSquare(sample: int)
    requires IsInt16(sample)
    ensures var x := sample as real / 32768.0; 0.0 <= Times(x, x) <= 1.0 && (Times(x, x) == 0.0 <==> sample == 0)
  {
    hide Times;
    UnitSquare(sample as real / 32768.0);
  }

  class Pcm16EnergyVad {
    const config: Config
    var speaking: bool
    var ended: bool
    var candidateMs: real
    var utteranceMs: real
    var silenceMs: real

    constructor (config: Config)
      ensures this.config == config && View() == RESET
    {
      this.config := config;
      speaking, ended := false, false;
      candidateMs, utteranceMs, silenceMs := 0.0, 0.0, 0.0;
    }

    ghost function View(): State
      reads this
    {
      State(speaking, ended, candidateMs, utteranceMs, silenceMs)
    }

    method Reset()
      modifies this
      ensures View() == RESET
    {
      speaking, ended := false, false;
      candidateMs, utteranceMs, silenceMs := 0.0, 0.0, 0.0;
    }

    method Measure(audio: seq<Byte>, rate: int, channels: int) returns (frame: Frame)
      requires Check(audio, rate, channels).None?
      ensures frame == FrameOf(audio, rate, channels)
    {
      CheckedIsWholeFrames(audio, rate, channels);
      var samples := Unpack(audio);
      var squareSum, peak := 0.0, 0;
      for i := 0 to |samples|
        invariant squareSum == Energy(samples[..i]) && peak == Peak(samples[..i])
      {
        assert samples[..i + 1][..i] == samples[..i];
        var absolute := Abs(samples[i]);
        if peak < absolute {
          peak := absolute;
        }
        var normalized := samples[i] as real / 32768.0;
        squareSum := squareSum + Times(normalized, normalized);
      }
      assert samples[..|samples|] == samples;
      var normalizedPeak := peak as real / 32768.0;
      frame := Frame(squareSum / |samples| as real,
                     if normalizedPeak < 1.0 then normalizedPeak else 1.0,
                     (|samples| / channels) as real / rate as real * 1000.0);
    }

    /** A refused frame changes nothing; any other moves the detector by one step of the history. */
    method Observe(audio: seq<Byte>, rate: int, channels: int) returns (r: Result<Observation, VadError>)
      modifies this
      ensures Check(audio, rate, channels).Some? ==>
                r == Err(Check(audio, rate, channels).value) && View() == old(View())
      ensures Check(audio, rate, channels).None? ==>
                var frame := FrameOf(audio, rate, channels);
                View() == Step(config, old(View()), frame) && r == Ok(Report(config, old(View()), frame))
    {
      hide Energy, Peak, Unpack, FrameOf, Times;
      if rate <= 0 {
        return Err(BadRate);
      }
      if channels != 1 && channels != 2 {
        return Err(BadChannels);
      }
      if |audio| == 0 {
        return Err(EmptyFrame);
      }
      if |audio| % (2 * channels) != 0 {
        return Err(Misaligned);
      }
      var frame := Measure(audio, rate, channels);
      var loud := frame.meanSquare >= Times(config.speechThreshold, config.speechThreshold);
      var quiet := frame.meanSquare <= Times(config.releaseThreshold, config.releaseThreshold);
      if ended {
        return Ok(Observation(frame, SpeechEnded, utteranceMs, silenceMs, false, true, true));
      }
      var speechStarted, speechEnded := false, false;
      var verdict;
      if !speaking {
        if loud {
          candidateMs := candidateMs + frame.ms;
          verdict := SpeechCandidate;
          if candidateMs >= config.speechStartMs as real {
            speaking := true;
            speechStarted := true;
            utteranceMs := candidateMs;
            silenceMs := 0.0;
            verdict := Speaking;
          }
        } else {
          candidateMs := 0.0;
          verdict := Silence;
        }
      } else {
        utteranceMs := utteranceMs + frame.ms;
        if quiet {
          silenceMs := silenceMs + frame.ms;
        } else {
          silenceMs := 0.0;
        }
        if utteranceMs >= config.maxUtteranceMs as real {
          ended := true;
          speechEnded := true;
          verdict := MaxDuration;
        } else if silenceMs >= config.endSilenceMs as real {
          ended := true;
          speechEnded := true;
          verdict := SpeechEnded;
        } else {
          verdict := Speaking;
        }
      }
      return Ok(Observation(frame, verdict, utteranceMs, silenceMs, speechStarted, speechEnded, speechEnded));
    }
  }
}
