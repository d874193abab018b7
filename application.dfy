/**
 * The stateful handlers of app/application.c: the ADC peak-hold measurement
 * cycle driven by the countdown adc_cntd and the running peak max, and the two
 * event counters switch_cnt and button_click_count.
 *
 * Each handler is specified by a pure function over the globals it touches;
 * the class Globals holds those globals and is proved to update them as the
 * functions say.
 */
module Application {

  /** uint16_t: the button press count wraps at 2^16. */
  newtype uint16 = x: int | 0 <= x < 0x1_0000

  /** The countdown value adc_measure_task starts a cycle with. */
  const MeasureCount: int := 50

  /** The ADC cycle's globals: the countdown adc_cntd and the running peak max. */
  datatype AdcState = AdcState(cntd: int, peak: real)

  datatype AdcEvent = Done | OtherAdcEvent

  /**
   * What a step of the ADC cycle asks of the outside world: nothing, one more
   * asynchronous measurement on channel A4, or publishing a wattage.
   */
  datatype AdcAction = NoAction | Measure | Publish(watt: real)

  datatype AdcStep = AdcStep(state: AdcState, action: AdcAction)

  /** adc_measure_task: reset the countdown and the peak, request one measurement. */
  function StartCycle(): (r: AdcStep)
    ensures r.state.cntd == MeasureCount && r.state.peak == 0.0
    ensures r.action == Measure
  {
    AdcStep(AdcState(MeasureCount, 0.0), Measure)
  }

  /** The wattage before clamping: peak * 15 * 0.707 amperes at 220 volts, less 10. */
  function RawWatt(peak: real): real
  {
    peak * 15.0 * 0.707 * 220.0 - 10.0
  }

  /** The published wattage: the raw wattage clamped to be non-negative. */
  function Watt(peak: real): (w: real)
    ensures w >= 0.0
    ensures w >= RawWatt(peak)
    ensures w == RawWatt(peak) || w == 0.0
  {
    var w := RawWatt(peak);
    if w < 0.0 then 0.0 else w
  }

  /**
   * A DONE event with sample v: fold v into the peak, then post-decrement the
   * countdown; publish when it was 0, otherwise request another measurement.
   */
  function OnDone(s: AdcState, v: real): (r: AdcStep)
    ensures r.state.peak >= s.peak && r.state.peak >= v
    ensures r.state.peak == s.peak || r.state.peak == v
    ensures r.state.cntd == s.cntd - 1
    ensures r.action.Publish? <==> s.cntd == 0
    ensures r.action.Publish? ==> r.action.watt == Watt(r.state.peak)
    ensures !r.action.Publish? ==> r.action == Measure
  {
    var peak := if v > s.peak then v else s.peak;
    var action := if s.cntd == 0 then Publish(Watt(peak)) else Measure;
    AdcStep(AdcState(s.cntd - 1, peak), action)
  }

  /** adc_event_handler: only DONE events do anything. */
  function OnAdcEvent(s: AdcState, ev: AdcEvent, v: real): (r: AdcStep)
    ensures ev != Done ==> r == AdcStep(s, NoAction)
    ensures ev == Done ==> r == OnDone(s, v)
  {
    if ev == Done then OnDone(s, v) else AdcStep(s, NoAction)
  }

  /** The state and the actions after a DONE event for each sample in turn. */
  datatype AdcTrace = AdcTrace(state: AdcState, actions: seq<AdcAction>)

  function RunDone(s: AdcState, vs: seq<real>): (r: AdcTrace)
    ensures |r.actions| == |vs|
    decreases |vs|
  {
    if vs == [] then AdcTrace(s, [])
    else
      var step := OnDone(s, vs[0]);
      var rest := RunDone(step.state, vs[1..]);
      AdcTrace(rest.state, [step.action] + rest.actions)
  }

  /**
   * Peak hold: the peak never falls, ends at least every sample seen, and is
   * either where it started or one of the samples.
   */
  lemma {:induction false} PeakHold(s: AdcState, vs: seq<real>)
    ensures RunDone(s, vs).state.peak >= s.peak
    ensures forall i :: 0 <= i < |vs| ==> vs[i] <= RunDone(s, vs).state.peak
    ensures RunDone(s, vs).state.peak == s.peak ||
            exists i :: 0 <= i < |vs| && RunDone(s, vs).state.peak == vs[i]
    ensures RunDone(s, vs).state.cntd == s.cntd - |vs|
    decreases |vs|
  {
    if vs != [] {
      var t := OnDone(s, vs[0]).state;
      PeakHold(t, vs[1..]);
      var p := RunDone(s, vs).state.peak;
      assert RunDone(s, vs).state == RunDone(t, vs[1..]).state;
      forall i | 0 <= i < |vs|
        ensures vs[i] <= p
      {
        if i > 0 {
          assert vs[i] == vs[1..][i - 1];
        }
      }
      if p != s.peak {
        if p == t.peak {
          assert p == vs[0];
        } else {
          var k :| 0 <= k < |vs[1..]| && p == vs[1..][k];
          assert p == vs[k + 1];
        }
      }
    }
  }

  /**
   * The countdown: from a countdown of c >= 0, the first c DONE events each
   * request a measurement and the next one publishes the clamped wattage of the
   * peak so far.
   */
  lemma {:induction false} Countdown(s: AdcState, vs: seq<real>)
    requires 0 <= s.cntd
    requires |vs| <= s.cntd + 1
    ensures forall i :: 0 <= i < |vs| && i < s.cntd ==> RunDone(s, vs).actions[i] == Measure
    ensures |vs| == s.cntd + 1 ==>
              RunDone(s, vs).actions[s.cntd] == Publish(Watt(RunDone(s, vs).state.peak))
    decreases |vs|
  {
    if vs != [] {
      var step := OnDone(s, vs[0]);
      var r := RunDone(s, vs);
      if s.cntd == 0 {
        assert |vs| == 1;
        assert vs[1..] == [];
        assert r.actions == [step.action];
      } else {
        Countdown(step.state, vs[1..]);
        var rest := RunDone(step.state, vs[1..]);
        assert r.actions == [Measure] + rest.actions;
        forall i | 0 <= i < |vs| && i < s.cntd
          ensures r.actions[i] == Measure
        {
          if i > 0 {
            assert r.actions[i] == rest.actions[i - 1];
          }
        }
      }
    }
  }

  /**
   * An independent definition of the held peak: the largest of p and the
   * samples, taken from the last sample backwards.
   */
  function PeakFrom(p: real, vs: seq<real>): real
    decreases |vs|
  {
    if vs == [] then p
    else
      var q := PeakFrom(p, vs[..|vs| - 1]);
      if vs[|vs| - 1] > q then vs[|vs| - 1] else q
  }

  /** Running one more sample is one more DONE step after the run. */
  lemma {:induction false} RunDoneSnoc(s: AdcState, vs: seq<real>, v: real)
    ensures RunDone(s, vs + [v]).state == OnDone(RunDone(s, vs).state, v).state
    decreases |vs|
  {
    if vs == [] {
      assert vs + [v] == [v];
      assert [v][1..] == [];
    } else {
      assert (vs + [v])[0] == vs[0];
      assert (vs + [v])[1..] == vs[1..] + [v];
      RunDoneSnoc(OnDone(s, vs[0]).state, vs[1..], v);
    }
  }

  /** The peak a run holds is exactly the largest of its starting peak and the samples. */
  lemma {:induction false} PeakIsLargest(s: AdcState, vs: seq<real>)
    ensures RunDone(s, vs).state.peak == PeakFrom(s.peak, vs)
    decreases |vs|
  {
    if vs != [] {
      var n := |vs| - 1;
      PeakIsLargest(s, vs[..n]);
      assert vs == vs[..n] + [vs[n]];
      RunDoneSnoc(s, vs[..n], vs[n]);
    }
  }

  /**
   * A whole cycle: after adc_measure_task, the first 50 DONE events each request
   * a measurement and the 51st publishes, once, a non-negative wattage computed
   * from a peak that is at least 0 and at least every sample.
   */
  lemma MeasurementCycle(vs: seq<real>)
    requires |vs| == MeasureCount + 1
    ensures forall i :: 0 <= i < MeasureCount ==> RunDone(StartCycle().state, vs).actions[i] == Measure
    ensures RunDone(StartCycle().state, vs).actions[MeasureCount] ==
              Publish(Watt(RunDone(StartCycle().state, vs).state.peak))
    ensures RunDone(StartCycle().state, vs).state.peak >= 0.0
    ensures forall i :: 0 <= i < |vs| ==> vs[i] <= RunDone(StartCycle().state, vs).state.peak
    ensures RunDone(StartCycle().state, vs).state.peak == PeakFrom(0.0, vs)
    ensures RunDone(StartCycle().state, vs).state.cntd == -1
  {
    Countdown(StartCycle().state, vs);
    PeakHold(StartCycle().state, vs);
    PeakIsLargest(StartCycle().state, vs);
  }

  /** switch_event_handler: CLOSED events are counted. */
  datatype SwitchEvent = Opened | Closed

  function OnSwitch(c: int, ev: SwitchEvent): (r: int)
    ensures ev == Closed ==> r == c + 1
    ensures ev != Closed ==> r == c
  {
    if ev == Closed then c + 1 else c
  }

  function CountClosed(evs: seq<SwitchEvent>): nat
  {
    if evs == [] then 0 else (if evs[0] == Closed then 1 else 0) + CountClosed(evs[1..])
  }

  function RunSwitch(c: int, evs: seq<SwitchEvent>): int
    decreases |evs|
  {
    if evs == [] then c else RunSwitch(OnSwitch(c, evs[0]), evs[1..])
  }

  /** switch_cnt goes up by exactly the number of CLOSED events. */
  lemma {:induction false} SwitchCounts(c: int, evs: seq<SwitchEvent>)
    ensures RunSwitch(c, evs) == c + CountClosed(evs)
    decreases |evs|
  {
    if evs != [] {
      SwitchCounts(OnSwitch(c, evs[0]), evs[1..]);
    }
  }

  /** button_event_handler: PRESS events are counted in a uint16_t. */
  datatype ButtonEvent = Press | Release | Click | Hold

  function OnButton(c: uint16, ev: ButtonEvent): (r: uint16)
    ensures ev == Press ==> r as int == (c as int + 1) % 0x1_0000
    ensures ev != Press ==> r == c
  {
    if ev == Press then ((c as int + 1) % 0x1_0000) as uint16 else c
  }

  function CountPresses(evs: seq<ButtonEvent>): nat
  {
    if evs == [] then 0 else (if evs[0] == Press then 1 else 0) + CountPresses(evs[1..])
  }

  function RunButton(c: uint16, evs: seq<ButtonEvent>): uint16
    decreases |evs|
  {
    if evs == [] then c else RunButton(OnButton(c, evs[0]), evs[1..])
  }

  /** The press count is the number of PRESS events, modulo 2^16. */
  lemma {:induction false} ButtonCounts(c: uint16, evs: seq<ButtonEvent>)
    ensures RunButton(c, evs) as int == (c as int + CountPresses(evs)) % 0x1_0000
    decreases |evs|
  {
    if evs != [] {
      var c' := OnButton(c, evs[0]);
      ButtonCounts(c', evs[1..]);
    }
  }

  /** The globals of app/application.c that the handlers update. */
  class Globals {
    var adcCntd: int
    var max: real
    var switchCnt: int
    var buttonClickCount: uint16

    function Adc(): AdcState
      reads this
    {
      AdcState(adcCntd, max)
    }

    /** Zero-initialised static storage. */
    constructor ()
      ensures adcCntd == 0 && max == 0.0 && switchCnt == 0 && buttonClickCount == 0
    {
      adcCntd, max, switchCnt, buttonClickCount := 0, 0.0, 0, 0;
    }

    /** adc_measure_task. */
    method AdcMeasureTask() returns (action: AdcAction)
      modifies this`adcCntd, this`max
      ensures AdcStep(Adc(), action) == StartCycle()
    {
      adcCntd := MeasureCount;
      max := 0.0;
      action := Measure;
    }

    /**
     * adc_event_handler; vdda and result are the supply and channel voltages
     * the handler reads from the ADC.
     */
    method AdcEventHandler(ev: AdcEvent, vdda: real, result: real) returns (action: AdcAction)
      modifies this`adcCntd, this`max
      ensures AdcStep(Adc(), action) == OnAdcEvent(old(Adc()), ev, vdda / 2.0 - result)
    {
      action := NoAction;
      if ev == Done {
        var v := vdda / 2.0 - result;
        if v > max {
          max := v;
        }
        var was := adcCntd;
        adcCntd := adcCntd - 1;
        if was == 0 {
          var a := max * 15.0 * 0.707;
          var w := a * 220.0 - 10.0;
          if w < 0.0 {
            w := 0.0;
          }
          action := Publish(w);
        } else {
          action := Measure;
        }
      }
    }

    /** switch_event_handler. */
    method SwitchEventHandler(ev: SwitchEvent)
      modifies this`switchCnt
      ensures switchCnt == OnSwitch(old(switchCnt), ev)
    {
      if ev == Closed {
        switchCnt := switchCnt + 1;
      }
    }

    /** The press counter of button_event_handler. */
    method ButtonEventHandler(ev: ButtonEvent)
      modifies this`buttonClickCount
      ensures buttonClickCount == OnButton(old(buttonClickCount), ev)
    {
      if ev == Press {
        buttonClickCount := ((buttonClickCount as int + 1) % 0x1_0000) as uint16;
      }
    }
  }
}
