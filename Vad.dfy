/**
 * Voice activity detection: an energy gate whose threshold follows the
 * sensitivity and adapts slowly to the observed energy, a hangover that
 * keeps reporting voice for `timeout_ms` after the last loud frame, and the
 * push-to-talk and toggle modes that report nothing while the gate is closed.
 * Instants are milliseconds supplied by the caller.
 */
module Vad {
  import opened Common

  datatype VadMode = Auto | PushToTalk | Toggle

  /** `VADResult`; the wall-clock timestamp is a parameter. */
  datatype VadResult = VadResult(voice_detected: bool, confidence: real, timestamp: nat, duration_ms: nat)

  /** The bounds `recompute_threshold` maps sensitivity into. */
  const MinThreshold: real := 0.0005
  const MaxThreshold: real := 0.01
  /** The bounds `adapt_threshold` keeps the threshold within. */
  const MinAdaptive: real := 0.00001
  const MaxAdaptive: real := 0.05
  /** The adaptation rate. */
  const Alpha: real := 0.01

  /** `recompute_threshold`: higher sensitivity, lower threshold. */
  function ThresholdFor(sensitivity: real): real
  {
    MinThreshold + (1.0 - Clamp(sensitivity, 0.0, 1.0)) * (MaxThreshold - MinThreshold)
  }

  /** The threshold lies in [5e-4, 1e-2] and never rises as sensitivity rises. */
  lemma ThresholdBounds(s: real, t: real)
    ensures MinThreshold <= ThresholdFor(s) <= MaxThreshold
    ensures s <= t ==> ThresholdFor(t) <= ThresholdFor(s)
    ensures 0.0 <= s <= 1.0 && 0.0 <= t <= 1.0 && s < t ==> ThresholdFor(t) < ThresholdFor(s)
  {
    var cs := Clamp(s, 0.0, 1.0);
    var ct := Clamp(t, 0.0, 1.0);
    assert s <= t ==> cs <= ct;
    assert (1.0 - cs) * (MaxThreshold - MinThreshold) <= MaxThreshold - MinThreshold;
    assert s <= t ==> (1.0 - ct) * (MaxThreshold - MinThreshold) <= (1.0 - cs) * (MaxThreshold - MinThreshold);
  }

  /** `adapt_threshold`: a step of 1% towards max(observed, threshold), then bounds. */
  function Adapted(threshold: real, observed: real): (r: real)
    ensures MinAdaptive <= r <= MaxAdaptive
  {
    var target := MaxReal(observed, threshold);
    var t := (1.0 - Alpha) * threshold + Alpha * target;
    if t < MinAdaptive then MinAdaptive else if t > MaxAdaptive then MaxAdaptive else t
  }

  /** Adaptation only moves the threshold up towards louder frames, never down (within the bounds). */
  lemma AdaptedNeverFalls(threshold: real, observed: real)
    requires MinAdaptive <= threshold <= MaxAdaptive
    ensures threshold <= Adapted(threshold, observed)
    ensures observed <= threshold ==> Adapted(threshold, observed) == threshold
  {
    var target := MaxReal(observed, threshold);
    assert (1.0 - Alpha) * threshold + Alpha * target >= (1.0 - Alpha) * threshold + Alpha * threshold;
  }

  function SumSquares(samples: seq<real>): (r: real)
    ensures r >= 0.0
  {
    if |samples| == 0 then 0.0
    else SumSquares(samples[..|samples| - 1]) + samples[|samples| - 1] * samples[|samples| - 1]
  }

  /** `compute_frame_energy`: the mean square, 0 for an empty frame. */
  function FrameEnergy(samples: seq<real>): (r: real)
    ensures r >= 0.0
    ensures |samples| == 0 ==> r == 0.0
  {
    if |samples| == 0 then 0.0 else SumSquares(samples) / (|samples| as real)
  }

  /** `Instant::duration_since`, which saturates at zero. */
  function Since(now: nat, earlier: nat): nat
  {
    if now >= earlier then now - earlier else 0
  }

  /** The hangover state: the last loud frame and the start of the current segment. */
  datatype Segment = Segment(last_voice: Option<nat>, segment_start: Option<nat>)

  /**
   * The hangover step of `process_frame`. A loud frame reports voice, opens a
   * segment if none is open and marks the last voice; a quiet frame still
   * reports voice within the timeout; past the timeout the segment is reset.
   */
  function Hangover(energy: real, threshold: real, seg: Segment, now: nat, timeout: nat): (r: (bool, Segment))
    ensures r.0 <==> energy >= threshold || (seg.last_voice.Some? && Since(now, seg.last_voice.value) <= timeout)
    ensures energy >= threshold ==>
      r.1 == Segment(Some(now), if seg.segment_start.None? then Some(now) else seg.segment_start)
    ensures energy < threshold && r.0 ==> r.1 == seg
    ensures !r.0 ==> r.1 == (if seg.last_voice.Some? then Segment(None, None) else seg)
  {
    if energy >= threshold then
      (true, Segment(Some(now), if seg.segment_start.None? then Some(now) else seg.segment_start))
    else if seg.last_voice.Some? then
      if Since(now, seg.last_voice.value) <= timeout then (true, seg) else (false, Segment(None, None))
    else (false, seg)
  }

  /** The confidence reported for a frame: energy over four thresholds, clamped to [0,1]. */
  function Confidence(energy: real, threshold: real): (r: real)
    ensures 0.0 <= r <= 1.0
    ensures threshold > 0.0 && energy >= 4.0 * threshold ==> r == 1.0
  {
    if threshold > 0.0 then Clamp(energy / (threshold * 4.0), 0.0, 1.0) else 0.0
  }

  /** Confidence is 1 from four thresholds up, and grows with the energy below that. */
  lemma ConfidenceMonotone(e1: real, e2: real, threshold: real)
    requires threshold > 0.0 && 0.0 <= e1 <= e2
    ensures Confidence(e1, threshold) <= Confidence(e2, threshold)
  {
    assert e1 / (threshold * 4.0) <= e2 / (threshold * 4.0);
  }

  class VadService {
    var sensitivity: real
    const timeout_ms: nat
    var mode: VadMode
    var active: bool
    var gate_open: bool
    var energy_threshold: real
    var last_voice_instant: Option<nat>
    var current_segment_start: Option<nat>

    /** Whatever happened, the threshold stays within the adaptive bounds. */
    predicate Valid()
      reads this
    {
      MinAdaptive <= energy_threshold <= MaxAdaptive
    }

    /** `VADService::new`: inactive, gate closed, the threshold from the sensitivity (stored unclamped). */
    constructor (sensitivity: real, timeout_ms: nat, mode: VadMode)
      ensures Valid()
      ensures this.sensitivity == sensitivity && this.timeout_ms == timeout_ms && this.mode == mode
      ensures !active && !gate_open && energy_threshold == ThresholdFor(sensitivity)
      ensures last_voice_instant == None && current_segment_start == None
    {
      this.sensitivity := sensitivity;
      this.timeout_ms := timeout_ms;
      this.mode := mode;
      active := false;
      gate_open := false;
      energy_threshold := ThresholdFor(sensitivity);
      last_voice_instant := None;
      current_segment_start := None;
      ThresholdBounds(sensitivity, sensitivity);
    }

    /** `start`: active, with the hangover state cleared. */
    method Start()
      modifies this
      ensures active && last_voice_instant == None && current_segment_start == None
      ensures sensitivity == old(sensitivity) && mode == old(mode) && gate_open == old(gate_open)
      ensures energy_threshold == old(energy_threshold)
    {
      active := true;
      last_voice_instant := None;
      current_segment_start := None;
    }

    /** `stop`. */
    method Stop()
      modifies this
      ensures !active
      ensures sensitivity == old(sensitivity) && mode == old(mode) && gate_open == old(gate_open)
      ensures energy_threshold == old(energy_threshold)
      ensures last_voice_instant == old(last_voice_instant) && current_segment_start == old(current_segment_start)
    {
      if active {
        active := false;
      }
    }

    /** `set_sensitivity`: clamps to [0,1] and recomputes the threshold. */
    method SetSensitivity(s: real)
      modifies this
      ensures Valid()
      ensures sensitivity == Clamp(s, 0.0, 1.0) && energy_threshold == ThresholdFor(s)
      ensures mode == old(mode) && active == old(active) && gate_open == old(gate_open)
      ensures last_voice_instant == old(last_voice_instant) && current_segment_start == old(current_segment_start)
    {
      sensitivity := Clamp(s, 0.0, 1.0);
      energy_threshold := ThresholdFor(sensitivity);
      ThresholdBounds(s, s);
    }

    method SetMode(m: VadMode)
      modifies this
      ensures mode == m
      ensures sensitivity == old(sensitivity) && active == old(active) && gate_open == old(gate_open)
      ensures energy_threshold == old(energy_threshold)
      ensures last_voice_instant == old(last_voice_instant) && current_segment_start == old(current_segment_start)
    {
      mode := m;
    }

    /** `set_gate`: closing the gate resets the segment tracking. */
    method SetGate(open: bool)
      modifies this
      ensures gate_open == open
      ensures !open ==> last_voice_instant == None && current_segment_start == None
      ensures open ==> last_voice_instant == old(last_voice_instant) && current_segment_start == old(current_segment_start)
      ensures sensitivity == old(sensitivity) && mode == old(mode) && active == old(active)
      ensures energy_threshold == old(energy_threshold)
    {
      gate_open := open;
      if !open {
        current_segment_start := None;
        last_voice_instant := None;
      }
    }

    /**
     * `process_frame` at instant `now` (the result is stamped `wall`). An
     * inactive detector, or a closed gate in push-to-talk or toggle mode,
     * reports no voice and changes nothing. Otherwise voice and the new
     * segment come from the hangover step, the duration runs from the segment
     * start, and the threshold adapts to the frame's energy.
     */
    method ProcessFrame(samples: seq<real>, now: nat, wall: nat) returns (r: VadResult)
      requires Valid()
      modifies this
      ensures Valid()
      ensures 0.0 <= r.confidence <= 1.0 && r.timestamp == wall
      ensures sensitivity == old(sensitivity) && mode == old(mode) && active == old(active)
      ensures gate_open == old(gate_open)
      ensures !old(active) || (mode != Auto && !gate_open) ==>
        r == VadResult(false, 0.0, wall, 0)
        && energy_threshold == old(energy_threshold)
        && last_voice_instant == old(last_voice_instant) && current_segment_start == old(current_segment_start)
      ensures old(active) && (mode == Auto || gate_open) ==>
        var e := FrameEnergy(samples);
        var h := Hangover(e, old(energy_threshold),
                          Segment(old(last_voice_instant), old(current_segment_start)), now, timeout_ms);
        && r.voice_detected == h.0
        && last_voice_instant == h.1.last_voice && current_segment_start == h.1.segment_start
        && r.duration_ms == (if h.1.segment_start.Some? then Since(now, h.1.segment_start.value) else 0)
        && r.confidence == Confidence(e, old(energy_threshold))
        && energy_threshold == Adapted(old(energy_threshold), e)
    {
      if !active {
        return VadResult(false, 0.0, wall, 0);
      }
      if mode != Auto && !gate_open {
        return VadResult(false, 0.0, wall, 0);
      }
      var frame_energy := FrameEnergy(samples);
      var voice_detected := frame_energy >= energy_threshold;
      if voice_detected {
        if current_segment_start.None? {
          current_segment_start := Some(now);
        }
        last_voice_instant := Some(now);
      } else if last_voice_instant.Some? {
        if Since(now, last_voice_instant.value) <= timeout_ms {
          voice_detected := true;
        } else {
          current_segment_start := None;
          last_voice_instant := None;
        }
      }
      var duration_ms := if current_segment_start.Some? then Since(now, current_segment_start.value) else 0;
      var confidence := Confidence(frame_energy, energy_threshold);
      r := VadResult(voice_detected, confidence, wall, duration_ms);
      energy_threshold := Adapted(energy_threshold, frame_energy);
    }
  }

  /**
   * In auto mode, a loud frame opens a segment; a quiet frame within the
   * timeout still reports voice; a quiet frame past it reports none and
   * closes the segment.
   */
  method HangoverScenario() returns (first: bool, second: bool, third: bool, closed: bool)
    ensures first && second && !third && closed
  {
    var vad := new VadService(0.5, 2000, Auto);
    vad.Start();
    var r1 := vad.ProcessFrame([1.0], 1000, 0);
    first := r1.voice_detected;
    var r2 := vad.ProcessFrame([0.0], 2500, 0);
    second := r2.voice_detected;
    var r3 := vad.ProcessFrame([0.0], 5000, 0);
    third := r3.voice_detected;
    closed := vad.current_segment_start == None;
  }
}
