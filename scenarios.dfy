/** Clients that drive a fresh trainer through concrete event sequences and
    state, from the event methods' contracts alone, the outcome each one
    produces. */
module Scenarios {
  import opened Manifest
  import opened ReactionTrainer

  /** Clip "a" has a Drive Impact at 2.0 s; clip "b" has none. */
  function TwoClips(): seq<Sequence> {
    [Sequence("a", "a.mp4", Some(2.0)), Sequence("b", "b.mp4", None)]
  }

  /** A frame exactly at the impact time opens the window; a press 100 ms
      later is "Good DI!", counted as one pass. The advance then moves on to
      clip "b" with input enabled again. */
  method GoodReaction() returns (pass: nat, fail: nat, shown: Option<Verdict>, idx: nat, enabled: bool)
    ensures pass == 1 && fail == 0
    ensures shown == Some(Verdict(true, GoodDI)) && Text(shown.value.message) == "Good DI!"
    ensures idx == 1 && enabled
  {
    var t := new Trainer(TwoClips());
    t.OnFrame(2000.0, 2.0);
    assert t.hasOpened;
    t.OnInput(2.1);
    assert t.pendingAdvances == 1 && t.currentIdx == 0;
    pass, fail, shown := t.pass, t.fail, t.overlay;
    t.OnAdvance();
    idx, enabled := t.currentIdx, t.inputEnabled;
  }

  /** The window opens at 2.0 s and no press comes: the deadline reports
      "Missed!". A later press is locked out and changes nothing. */
  method DeadlineMiss() returns (pass: nat, fail: nat, shown: Option<Verdict>, due: real)
    ensures pass == 0 && fail == 1
    ensures shown == Some(Verdict(false, Missed)) && Text(shown.value.message) == "Missed!"
    ensures due == 2000.0 + 1250.0 / 3.0
  {
    var t := new Trainer(TwoClips());
    t.OnFrame(1983.0, 1.983);
    t.OnFrame(2000.0, 2.0);
    t.OnFrame(2016.0, 2.016);
    due := t.deadlineDue;
    t.OnDeadline();
    t.OnInput(2.5);
    pass, fail, shown := t.pass, t.fail, t.overlay;
  }

  /** A press before the impact time is "DI wasn't active!". */
  method TooSoon() returns (shown: Option<Verdict>)
    ensures shown == Some(Verdict(false, DiNotActive)) && Text(shown.value.message) == "DI wasn't active!"
  {
    var t := new Trainer(TwoClips());
    t.OnFrame(1500.0, 1.5);
    t.OnInput(1.6);
    shown := t.overlay;
  }

  /** A press past the impact time before any frame has shown it is
      "Too late!": the window was never opened. */
  method PressBeforeFrame() returns (shown: Option<Verdict>)
    ensures shown == Some(Verdict(false, TooLate))
  {
    var t := new Trainer(TwoClips());
    t.OnFrame(1983.0, 1.983);
    t.OnInput(2.0);
    shown := t.overlay;
  }

  /** On a clip without impact time, running to the end untouched is
      "Good Block!", and a press at any time is "DI wasn't active!" rather
      than "False positive". */
  method NoImpactClip(pressAt: real) returns (ended: Option<Verdict>, pressed: Option<Verdict>, windowShown: bool)
    ensures ended == Some(Verdict(true, GoodBlock))
    ensures pressed == Some(Verdict(false, DiNotActive))
    ensures !windowShown
  {
    var t := new Trainer([Sequence("b", "b.mp4", None)]);
    t.OnFrame(1000.0, 100.0);
    t.OnEnded();
    ended := t.overlay;
    var u := new Trainer([Sequence("b", "b.mp4", None)]);
    u.OnFrame(1000.0, pressAt);
    u.OnInput(pressAt);
    pressed, windowShown := u.overlay, u.hasOpened;
  }

  /** A press while the window is open cancels the deadline: the timer can
      no longer report, and the end of the clip is ignored. */
  method InputFencesDeadline() returns (pass: nat, fail: nat)
    ensures pass == 1 && fail == 0
  {
    var t := new Trainer(TwoClips());
    t.OnFrame(2000.0, 2.0);
    t.OnInput(2.2);
    t.OnDeadline();
    t.OnEnded();
    pass, fail := t.pass, t.fail;
  }

  /** A clip that ends while its window is still open: the end of media
      reports "Missed!" and so does the deadline that is still armed, so one
      showing is counted twice, and its two advance steps skip clip "b". */
  method EndedInsideWindow() returns (fail: nat, idx: nat)
    ensures fail == 2
    ensures idx == 2
  {
    var clips := [Sequence("a", "a.mp4", Some(2.0)), Sequence("b", "b.mp4", None), Sequence("c", "c.mp4", Some(1.0))];
    var t := new Trainer(clips);
    t.OnFrame(2000.0, 2.0);
    t.OnEnded();
    t.OnDeadline();
    fail := t.fail;
    t.OnAdvance();
    t.OnAdvance();
    idx := t.currentIdx;
  }

  /** With a single clip the advance step keeps the same clip, and the
      window's opened flag is never reset: after "Missed!", a press on the
      next showing is "Good DI!" whenever it comes after the impact time. */
  method SingleClipKeepsWindow(pressAt: real) returns (pass: nat, fail: nat, shown: Option<Verdict>)
    requires pressAt >= 2.0
    ensures pass == 1 && fail == 1
    ensures shown == Some(Verdict(true, GoodDI))
  {
    var t := new Trainer([Sequence("a", "a.mp4", Some(2.0))]);
    t.OnFrame(2000.0, 2.0);
    t.OnDeadline();
    t.OnAdvance();
    t.OnInput(pressAt);
    pass, fail, shown := t.pass, t.fail, t.overlay;
  }

  /** Advancing visits the clips in order and wraps around. */
  method SequentialOrder() returns (a: nat, b: nat, c: nat)
    ensures a == 1 && b == 2 && c == 0
  {
    var clips := [Sequence("a", "a.mp4", None), Sequence("b", "b.mp4", None), Sequence("c", "c.mp4", None)];
    var t := new Trainer(clips);
    t.OnEnded();
    t.OnAdvance();
    a := t.currentIdx;
    t.OnEnded();
    t.OnAdvance();
    b := t.currentIdx;
    t.OnEnded();
    t.OnAdvance();
    c := t.currentIdx;
  }
}
