/** The admin editor's manifest updates: looking up the selected clip and
    rewriting its Drive Impact time, leaving every other record as it was. */
module Admin {
  import opened Manifest

  /** True when some entry of `s` has id `id`. */
  predicate HasId(s: seq<Sequence>, id: string) {
    exists i :: 0 <= i < |s| && s[i].id == id
  }

  /** `current`: the first entry whose id equals `id`, or `None`. */
  function Find(s: seq<Sequence>, id: string): (r: Option<Sequence>)
    ensures r.None? <==> !HasId(s, id)
    ensures r.Some? ==> exists i :: 0 <= i < |s| && s[i] == r.value && r.value.id == id
                                   && forall j :: 0 <= j < i ==> s[j].id != id
  {
    if s == [] then None
    else if s[0].id == id then Some(s[0])
    else
      var r := Find(s[1..], id);
      assert HasId(s, id) ==> HasId(s[1..], id) by {
        if HasId(s, id) {
          var i :| 0 <= i < |s| && s[i].id == id;
          assert s[1..][i - 1].id == id;
        }
      }
      assert HasId(s[1..], id) ==> HasId(s, id) by {
        if HasId(s[1..], id) {
          var i :| 0 <= i < |s| - 1 && s[1..][i].id == id;
          assert s[i + 1].id == id;
        }
      }
      if r.Some? then
        var i :| 0 <= i < |s| - 1 && s[1..][i] == r.value && r.value.id == id
                 && forall j :: 0 <= j < i ==> s[1..][j].id != id;
        assert s[i + 1] == r.value;
        assert forall j :: 0 <= j < i + 1 ==> s[j].id != id by {
          forall j | 0 <= j < i + 1 ensures s[j].id != id {
            if j > 0 { assert s[j] == s[1..][j - 1]; }
          }
        }
        r
      else r
  }

  /** The record update applied by `prev.map(...)`: entries with id `id` get
      Drive Impact time `t`, every other entry is returned as it was. */
  function SetImpact(s: seq<Sequence>, id: string, t: Option<real>): (r: seq<Sequence>)
    ensures |r| == |s|
    ensures forall i :: 0 <= i < |s| ==> r[i].id == s[i].id && r[i].src == s[i].src
    ensures forall i :: 0 <= i < |s| && s[i].id == id ==> r[i].driveImpactTime == t
    ensures forall i :: 0 <= i < |s| && s[i].id != id ==> r[i] == s[i]
  {
    if s == [] then []
    else
      var head := if s[0].id == id then s[0].(driveImpactTime := t) else s[0];
      var tail := SetImpact(s[1..], id, t);
      assert forall i :: 1 <= i < |s| ==> s[i] == s[1..][i - 1];
      [head] + tail
  }

  /** `handleSliderChange`: the slider reports milliseconds; the selected
      entry's Drive Impact time becomes that value in seconds. */
  function SliderChange(s: seq<Sequence>, selectedId: string, newValue: real): (r: seq<Sequence>)
    ensures |r| == |s|
    ensures forall i :: 0 <= i < |s| ==> r[i].id == s[i].id && r[i].src == s[i].src
    ensures forall i :: 0 <= i < |s| && s[i].id == selectedId ==>
              r[i].driveImpactTime.Some? && r[i].driveImpactTime.value * 1000.0 == newValue
    ensures forall i :: 0 <= i < |s| && s[i].id != selectedId ==> r[i] == s[i]
  {
    SetImpact(s, selectedId, Some(newValue / 1000.0))
  }

  /** `handleMark`: `video` is the editor's video element, given by its
      current time, or `None` when there is none. The list changes only when
      there is a video and a current entry; with a video, the result is the
      update of the selected entry to the video's time. */
  function Mark(s: seq<Sequence>, selectedId: string, video: Option<real>): (r: seq<Sequence>)
    ensures video.None? || !HasId(s, selectedId) ==> r == s
    ensures video.Some? ==> r == SetImpact(s, selectedId, Some(video.value))
  {
    if video.Some? && Find(s, selectedId).Some? then SetImpact(s, selectedId, Some(video.value))
    else s
  }

  /** If no entry has the selected id, an update returns the list unchanged. */
  lemma SetImpactNoMatch(s: seq<Sequence>, id: string, t: Option<real>)
    requires !HasId(s, id)
    ensures SetImpact(s, id, t) == s
  {
    var r := SetImpact(s, id, t);
    assert forall i :: 0 <= i < |s| ==> r[i] == s[i];
  }

  /** Two updates of the same entry: the later one wins. */
  lemma SetImpactLastWins(s: seq<Sequence>, id: string, a: Option<real>, b: Option<real>)
    ensures SetImpact(SetImpact(s, id, a), id, b) == SetImpact(s, id, b)
  {
    var r1, r2 := SetImpact(SetImpact(s, id, a), id, b), SetImpact(s, id, b);
    forall i | 0 <= i < |s| ensures r1[i] == r2[i] {
      if s[i].id == id {
        assert r1[i] == Sequence(s[i].id, s[i].src, b);
      }
    }
  }

  /** Applying the same slider value twice gives the list of applying it once. */
  lemma SliderChangeIdempotent(s: seq<Sequence>, selectedId: string, v: real)
    ensures SliderChange(SliderChange(s, selectedId, v), selectedId, v) == SliderChange(s, selectedId, v)
  {
    SetImpactLastWins(s, selectedId, Some(v / 1000.0), Some(v / 1000.0));
  }

  /** After an update, looking the selected id up again finds the same
      record with the new Drive Impact time. */
  lemma {:induction false} FindAfterSetImpact(s: seq<Sequence>, id: string, t: Option<real>)
    ensures Find(SetImpact(s, id, t), id) ==
              if Find(s, id).Some? then Some(Find(s, id).value.(driveImpactTime := t)) else None
  {
    if s != [] && s[0].id != id {
      FindAfterSetImpact(s[1..], id, t);
      assert SetImpact(s, id, t)[1..] == SetImpact(s[1..], id, t);
    }
  }

  /** An update of one id does not change what a lookup of any other id finds. */
  lemma {:induction false} FindOtherAfterSetImpact(s: seq<Sequence>, id: string, other: string, t: Option<real>)
    requires other != id
    ensures Find(SetImpact(s, id, t), other) == Find(s, other)
  {
    if s != [] && s[0].id != other {
      FindOtherAfterSetImpact(s[1..], id, other, t);
      assert SetImpact(s, id, t)[1..] == SetImpact(s[1..], id, t);
    }
  }

  /** Marking twice at the same video time gives the list of marking once. */
  lemma MarkIdempotent(s: seq<Sequence>, selectedId: string, video: Option<real>)
    ensures Mark(Mark(s, selectedId, video), selectedId, video) == Mark(s, selectedId, video)
  {
    if video.Some? {
      SetImpactLastWins(s, selectedId, Some(video.value), Some(video.value));
    }
  }
}
