/** The trainer's per-clip reaction-window state machine. A frame tick may
    open the Drive Impact window and arm a deadline; user input, the deadline
    or the end of the clip resolve the trial into a verdict; a delayed step
    then moves on to the next clip. */
module ReactionTrainer {
  import opened Manifest

  /** DRIVE_WINDOW_MS: 25 frames at 60 Hz, in milliseconds (1250/3). */
  const DriveWindowMs: real := (1000.0 / 60.0) * 25.0

  /** The messages a trial can end with. */
  datatype Message = DiNotActive | GoodDI | FalsePositive | TooLate | Missed | GoodBlock

  /** The text shown for each message (the overlay's and the feedback's `text`). */
  function Text(m: Message): string {
    match m
    case DiNotActive => "DI wasn't active!"
    case GoodDI => "Good DI!"
    case FalsePositive => "False positive"
    case TooLate => "Too late!"
    case Missed => "Missed!"
    case GoodBlock => "Good Block!"
  }

  /** What `handleResult` is called with. */
  datatype Verdict = Verdict(success: bool, message: Message)

  /** The comparison bound `driveImpactTime ?? Infinity` used by the input
      handler: a clip without an impact time has an infinite bound. */
  datatype Threshold = Finite(at: real) | Infinity

  function ThresholdOf(impact: Option<real>): Threshold {
    if impact.Some? then Finite(impact.value) else Infinity
  }

  /** `t < threshold` for a threshold that may be infinite. */
  predicate Below(t: real, th: Threshold) {
    th.Infinity? || t < th.at
  }

  /** The input handler's classification of a press at media time
      `currentTime`. On a clip without impact time every press is "DI wasn't
      active!", so "False positive" is never produced. */
  function Classify(currentTime: real, impact: Option<real>, hasOpened: bool): (v: Verdict)
    ensures v.message == DiNotActive <==> impact.None? || currentTime < impact.value
    ensures v.message == GoodDI <==> impact.Some? && currentTime >= impact.value && hasOpened
    ensures v.message == TooLate <==> impact.Some? && currentTime >= impact.value && !hasOpened
    ensures v.message != FalsePositive
    ensures v.success <==> v.message == GoodDI
  {
    if Below(currentTime, ThresholdOf(impact)) then Verdict(false, DiNotActive)
    else if hasOpened then Verdict(true, GoodDI)
    else Verdict(false, if impact.None? then FalsePositive else TooLate)
  }

  /** The end-of-media fallback: not reacting is right exactly when the clip
      has no impact time. */
  function EndedVerdict(impact: Option<real>): (v: Verdict)
    ensures v.success <==> impact.None?
    ensures v.success ==> v.message == GoodBlock
    ensures !v.success ==> v.message == Missed
  {
    if impact.None? then Verdict(true, GoodBlock) else Verdict(false, Missed)
  }

  /** Number of successful verdicts in a history. */
  function CountPasses(rs: seq<Verdict>): nat {
    if rs == [] then 0
    else CountPasses(rs[..|rs| - 1]) + (if rs[|rs| - 1].success then 1 else 0)
  }

  /** Recording one more verdict adds exactly its success bit, and the number
      of passes never exceeds the number of verdicts. */
  lemma {:induction false} CountPassesAppend(rs: seq<Verdict>, v: Verdict)
    ensures CountPasses(rs + [v]) == CountPasses(rs) + (if v.success then 1 else 0)
    ensures CountPasses(rs) <= |rs|
  {
    assert (rs + [v])[..|rs|] == rs;
    if rs != [] {
      CountPassesAppend(rs[..|rs| - 1], rs[|rs| - 1]);
      assert rs[..|rs| - 1] + [rs[|rs| - 1]] == rs;
    }
  }

  /** The advance step's `(idx + 1) % sequences.length`: the next index in
      order, wrapping from the last clip back to the first. */
  function NextIndex(idx: nat, n: nat): (j: nat)
    requires idx < n
    ensures j < n
    ensures j == if idx + 1 < n then idx + 1 else 0
  {
    (idx + 1) % n
  }

  class Trainer {
    /** The manifest handed to the component. */
    const clips: seq<Sequence>

    // Component state.
    var currentIdx: nat
    var windowOpen: bool          // the on-screen window indicator
    var inputEnabled: bool
    var pass: nat
    var fail: nat
    var overlay: Option<Verdict>
    var feedback: Option<Verdict>
    var refOpen: bool             // windowRef.current.open
    var pendingAdvances: nat      // one-second advance timers not yet run

    // Per-clip state of the timing effect.
    var hasOpened: bool
    var userClicked: bool
    var deadlinePending: bool     // windowTimer scheduled, neither run nor cleared
    var deadlineDue: real         // wall-clock time (ms) the deadline was set for

    // Ghost history.
    ghost var results: seq<Verdict>   // every verdict handed to handleResult
    ghost var advanced: nat           // advance steps run so far

    ghost predicate Valid()
      reads this
    {
      && |clips| > 0
      && currentIdx < |clips|
      && pass == CountPasses(results)
      && pass + fail == |results|
      && pendingAdvances + advanced == |results|
      && !refOpen
      && (hasOpened ==> clips[currentIdx].driveImpactTime.Some?)
      && (windowOpen ==> hasOpened)
      && (deadlinePending ==> windowOpen)
    }

    /** The clip being shown: `sequences[currentIdx]`. */
    function Clip(): (c: Sequence)
      reads this
      requires Valid()
      ensures c in clips
    {
      clips[currentIdx]
    }

    /** Nothing outside the per-clip state changed. */
    twostate predicate SessionUnchanged()
      reads this
    {
      && currentIdx == old(currentIdx)
      && inputEnabled == old(inputEnabled)
      && pass == old(pass) && fail == old(fail)
      && overlay == old(overlay) && feedback == old(feedback)
      && refOpen == old(refOpen)
      && pendingAdvances == old(pendingAdvances)
      && results == old(results) && advanced == old(advanced)
    }

    /** Nothing in the per-clip state changed. */
    twostate predicate ClipUnchanged()
      reads this
    {
      && windowOpen == old(windowOpen)
      && hasOpened == old(hasOpened) && userClicked == old(userClicked)
      && deadlinePending == old(deadlinePending) && deadlineDue == old(deadlineDue)
    }

    /** `handleResult(v)` took effect: input is locked, the verdict is shown,
        exactly one counter moved by one, and one advance is scheduled. */
    twostate predicate Recorded(v: Verdict)
      reads this
    {
      && !inputEnabled
      && overlay == Some(v) && feedback == Some(v)
      && pass == old(pass) + (if v.success then 1 else 0)
      && fail == old(fail) + (if v.success then 0 else 1)
      && pass + fail == old(pass) + old(fail) + 1
      && results == old(results) + [v]
      && pendingAdvances == old(pendingAdvances) + 1
      && currentIdx == old(currentIdx) && refOpen == old(refOpen) && advanced == old(advanced)
    }

    /** Mounting on a non-empty manifest: the first clip, input enabled, no
        results yet, and the timing effect's fresh per-clip state. */
    constructor (clips: seq<Sequence>)
      requires |clips| > 0
      ensures Valid()
      ensures this.clips == clips && currentIdx == 0 && Clip() == clips[0]
      ensures inputEnabled && !windowOpen && pass == 0 && fail == 0
      ensures overlay == None && feedback == None && pendingAdvances == 0 && results == []
      ensures !hasOpened && !userClicked && !deadlinePending
    {
      this.clips := clips;
      currentIdx, windowOpen, inputEnabled := 0, false, true;
      pass, fail := 0, 0;
      overlay, feedback, refOpen, pendingAdvances := None, None, false, 0;
      hasOpened, userClicked, deadlinePending, deadlineDue := false, false, false, 0.0;
      results, advanced := [], 0;
    }

    /** `handleResult`: lock input, show the verdict, count it, and schedule
        the advance to the next clip. */
    method HandleResult(v: Verdict)
      requires Valid()
      modifies this
      ensures Valid()
      ensures Recorded(v) && ClipUnchanged()
    {
      CountPassesAppend(results, v);
      inputEnabled := false;
      overlay, feedback := Some(v), Some(v);
      if v.success { pass := pass + 1; } else { fail := fail + 1; }
      results := results + [v];
      pendingAdvances := pendingAdvances + 1;
    }

    /** A frame tick at wall-clock `now` (ms) showing media time `mediaTime`
        (s). The window opens, and the deadline is armed, only the first time
        a frame reaches the clip's impact time (inclusive); a clip without
        impact time never opens it. */
    method OnFrame(now: real, mediaTime: real)
      requires Valid()
      modifies this
      ensures Valid()
      ensures SessionUnchanged()
      ensures var impact := old(Clip()).driveImpactTime;
              if !old(hasOpened) && impact.Some? && mediaTime >= impact.value then
                && hasOpened && windowOpen && deadlinePending && deadlineDue == now + DriveWindowMs
                && userClicked == old(userClicked)
              else
                ClipUnchanged()
      ensures old(hasOpened) ==> hasOpened && ClipUnchanged()
    {
      var impact := clips[currentIdx].driveImpactTime;
      if !hasOpened && impact.Some? && mediaTime >= impact.value {
        hasOpened := true;
        windowOpen := true;
        deadlinePending := true;
        deadlineDue := now + DriveWindowMs;
      }
    }

    /** The deadline timer runs. A cleared or already-run timer never runs
        again, so then nothing happens. Otherwise the indicator goes off, and
        "Missed!" is reported unless input has been accepted. */
    method OnDeadline()
      requires Valid()
      modifies this
      ensures Valid()
      ensures !old(deadlinePending) ==> SessionUnchanged() && ClipUnchanged()
      ensures old(deadlinePending) ==>
                && !deadlinePending && !windowOpen
                && hasOpened == old(hasOpened) && userClicked == old(userClicked)
                && deadlineDue == old(deadlineDue)
      ensures old(deadlinePending) && !old(userClicked) ==> Recorded(Verdict(false, Missed))
      ensures old(userClicked) ==> SessionUnchanged()
    {
      if deadlinePending {
        deadlinePending := false;
        windowOpen := false;
        if !userClicked {
          HandleResult(Verdict(false, Missed));
        }
      }
    }

    /** A press (click or Space) at media time `currentTime`. Ignored while
        input is locked; otherwise it marks the clip as answered, cancels the
        deadline and reports the classification of the press. */
    method OnInput(currentTime: real)
      requires Valid()
      modifies this
      ensures Valid()
      ensures !old(inputEnabled) ==> SessionUnchanged() && ClipUnchanged()
      ensures old(inputEnabled) ==>
                && userClicked && !deadlinePending
                && hasOpened == old(hasOpened) && windowOpen == old(windowOpen)
                && deadlineDue == old(deadlineDue)
                && Recorded(Classify(currentTime, old(Clip()).driveImpactTime, old(hasOpened)))
    {
      if !inputEnabled {
        return;
      }
      userClicked := true;
      deadlinePending := false;
      var v := Classify(currentTime, clips[currentIdx].driveImpactTime, hasOpened);
      HandleResult(v);
    }

    /** End of media. Nothing happens once input has been accepted on this
        clip; otherwise a clip without impact time is "Good Block!" and any
        other clip is "Missed!". */
    method OnEnded()
      requires Valid()
      modifies this
      ensures Valid()
      ensures old(userClicked) ==> SessionUnchanged() && ClipUnchanged()
      ensures !old(userClicked) ==> ClipUnchanged() && Recorded(EndedVerdict(old(Clip()).driveImpactTime))
    {
      if userClicked {
        return;
      }
      HandleResult(EndedVerdict(clips[currentIdx].driveImpactTime));
    }

    /** One scheduled advance timer runs (nothing happens if none is
        scheduled): clear the overlay, move to the next clip in order and
        re-enable input. When the index changes, the timing effect of the old
        clip is torn down (deadline cleared, indicator off) and the new clip
        starts with fresh per-clip state; with a single clip the index, and so
        the clip, stays the same and the per-clip state is kept. */
    method OnAdvance()
      requires Valid()
      modifies this
      ensures Valid()
      ensures old(pendingAdvances) == 0 ==> SessionUnchanged() && ClipUnchanged()
      ensures old(pendingAdvances) > 0 ==>
                && currentIdx == NextIndex(old(currentIdx), |clips|)
                && pendingAdvances == old(pendingAdvances) - 1
                && inputEnabled && overlay == None && !refOpen
                && pass == old(pass) && fail == old(fail) && feedback == old(feedback)
                && results == old(results)
      ensures old(pendingAdvances) > 0 ==> if currentIdx != old(currentIdx) then
                     && !hasOpened && !userClicked && !deadlinePending && !windowOpen
                     && deadlineDue == old(deadlineDue)
                   else
                     ClipUnchanged()
    {
      if pendingAdvances == 0 {
        return;
      }
      var next := NextIndex(currentIdx, |clips|);
      if next != currentIdx {
        RestartClip();
      }
      pendingAdvances, advanced := pendingAdvances - 1, advanced + 1;
      overlay, refOpen := None, false;
      currentIdx := next;
      inputEnabled := true;
    }

    /** The timing effect's cleanup for the clip being left (deadline
        cleared, `windowRef.current.open` and the indicator off), followed by
        the effect's fresh per-clip state for the next clip. */
    method RestartClip()
      requires Valid()
      modifies this
      ensures Valid()
      ensures SessionUnchanged()
      ensures !hasOpened && !userClicked && !deadlinePending && !windowOpen
      ensures deadlineDue == old(deadlineDue)
    {
      deadlinePending := false;
      refOpen := false;
      windowOpen := false;
      hasOpened, userClicked := false, false;
    }
  }
}
