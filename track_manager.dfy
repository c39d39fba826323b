/**
  The per-frame track bookkeeping: `track` in Tracker/TrackerUtils.py and its
  copy `TrackerGame.track` in sledilnik/TrackerGame.py. A dictionary from tag
  id to tracker is updated in three phases per frame: observe (update known
  ids, create trackers for new ones), remove (timed out or out of bounds), and
  coast (predict every survivor not seen this frame, then clear `detected`).

  The spec functions below describe one frame on values (`Tracks`, the state
  of every tracker by id); the class `TrackManager` holds the trackers
  themselves and is proved to follow them.

  New trackers keep `lastSeen == 0` as the constructor leaves it. The flag
  `stamp` of the spec functions selects the alternative in which a new tracker
  is stamped with the current frame; the class follows the source
  (`stamp == false`).
 */
module TrackManager {
  import opened Wrappers
  import opened Geometry
  import opened Filter
  import opened Markers
  import OT = ObjectTracker

  /** The state of every tracker, by tag id. */
  type Tracks = map<int, OT.TrackState>

  /** `objectTimeout`, `posLimitX` and `posLimitY`. */
  datatype ObjectsConfig = ObjectsConfig(objectTimeout: int, limits: Limits)

  const DefaultObjects := ObjectsConfig(DefaultTimeout, DefaultLimits)

  /** The velocity (and, by default, acceleration) of a new tracker. */
  const Zero4: seq<real> := [0.0, 0.0, 0.0, 0.0]

  // ------------------------------------------------------- tracker interface

  /** What `track` uses of a tracker: `updateState`, with a measurement or
      none, and the constructor applied to a new observation. */
  datatype Trackers = Trackers(update: (OT.TrackState, Option<Box>) -> OT.TrackState,
                               create: Observation -> OT.TrackState)

  /** The trackers of sledilnik/ObjectTracker.py: a new one starts at the
      observed position with zero velocity and acceleration. */
  function Kalman(cfg: KalmanConfig, num: Numerics): Trackers
  {
    Trackers((s: OT.TrackState, z: Option<Box>) => OT.Update(cfg, num, s, z),
             (o: Observation) => OT.Initial(cfg, num, o.id, o.position, Zero4, Zero4))
  }

  /** An update keeps the bookkeeping `track` owns and emits the measurement
      when there is one. */
  predicate KeepsBookkeeping(s: OT.TrackState, z: Option<Box>, r: OT.TrackState)
  {
    r.id == s.id && r.detected == s.detected && r.enabled == s.enabled &&
    r.lastSeen == s.lastSeen && r.lostFrames == s.lostFrames &&
    (z.Some? ==> r.position == z.value)
  }

  /** A new tracker carries the observation's id and position, starts
      detected, and has `lastSeen` and `lostFrames` at 0. */
  predicate StartsAt(o: Observation, r: OT.TrackState)
  {
    r.id == o.id && r.position == o.position && r.detected && r.lastSeen == 0 && r.lostFrames == 0
  }

  /** The properties of a tracker that the lemmas below rely on. */
  ghost predicate Sound(tr: Trackers)
  {
    (forall s, z :: KeepsBookkeeping(s, z, tr.update(s, z))) &&
    (forall o :: StartsAt(o, tr.create(o)))
  }

  /** The Kalman trackers have those properties. */
  lemma KalmanSound(cfg: KalmanConfig, num: Numerics)
    ensures Sound(Kalman(cfg, num))
  {
    forall s, z ensures KeepsBookkeeping(s, z, Kalman(cfg, num).update(s, z)) {
      OT.UpdateKeepsBookkeeping(cfg, num, s, z);
    }
  }

  // ----------------------------------------------------------- observe phase

  /** A known tracker that has just been updated with a measurement. */
  function Seen(s: OT.TrackState, frame: int): OT.TrackState
  {
    s.(detected := true, enabled := true, lastSeen := frame)
  }

  /** The tracker created for an id not yet in the dictionary. */
  function NewTrack(tr: Trackers, stamp: bool, o: Observation, frame: int): (s: OT.TrackState)
    ensures stamp ==> s.lastSeen == frame
    ensures !stamp ==> s == tr.create(o)
  {
    var s := tr.create(o);
    if stamp then s.(lastSeen := frame) else s
  }

  /** One iteration of the first loop. */
  function Observe(tr: Trackers, stamp: bool, m: Tracks, o: Observation, frame: int): (r: Tracks)
    ensures r.Keys == m.Keys + {o.id}
  {
    if o.id in m then m[o.id := Seen(tr.update(m[o.id], Some(o.position)), frame)]
    else m[o.id := NewTrack(tr, stamp, o, frame)]
  }

  /** The first loop: the observations in list order. */
  function ObserveAll(tr: Trackers, stamp: bool, m: Tracks, obs: seq<Observation>,
                      frame: int): (r: Tracks)
    ensures r.Keys == m.Keys + Ids(obs)
    decreases |obs|
  {
    if |obs| == 0 then m
    else Observe(tr, stamp, ObserveAll(tr, stamp, m, obs[..|obs| - 1], frame), obs[|obs| - 1], frame)
  }

  // ------------------------------------------------------------ remove phase

  /** The deletion test of the second loop. */
  predicate Stale(oc: ObjectsConfig, s: OT.TrackState, frame: int)
  {
    frame - s.lastSeen > oc.objectTimeout || !IsValidPos(oc.limits, s.position.x, s.position.y)
  }

  /** The second loop. */
  function Prune(oc: ObjectsConfig, m: Tracks, frame: int): (r: Tracks)
    ensures r.Keys <= m.Keys
    ensures forall k :: k in r ==> r[k] == m[k] && !Stale(oc, r[k], frame)
    ensures forall k :: k in m && !Stale(oc, m[k], frame) ==> k in r
  {
    map k | k in m && !Stale(oc, m[k], frame) :: m[k]
  }

  // ------------------------------------------------------------- coast phase

  /** One iteration of the third loop. */
  function Coast(tr: Trackers, s: OT.TrackState): (r: OT.TrackState)
    ensures !r.detected
    ensures s.detected ==> r == s.(detected := false)
  {
    if !s.detected then tr.update(s.(lostFrames := s.lostFrames + 1), None).(detected := false)
    else s.(detected := false)
  }

  /** The third loop. */
  function CoastAll(tr: Trackers, m: Tracks): (r: Tracks)
    ensures r.Keys == m.Keys
    ensures forall k :: k in r ==> !r[k].detected
  {
    map k | k in m :: Coast(tr, m[k])
  }

  /** One call of `track`. */
  function TrackStep(tr: Trackers, oc: ObjectsConfig, stamp: bool, m: Tracks,
                     obs: seq<Observation>, frame: int): (r: Tracks)
    ensures r.Keys <= m.Keys + Ids(obs)
    ensures forall k :: k in r ==> !r[k].detected
  {
    CoastAll(tr, Prune(oc, ObserveAll(tr, stamp, m, obs, frame), frame))
  }

  // --------------------------------------------------------- observation ids

  /** The ids of a list of observations. */
  function Ids(obs: seq<Observation>): set<int>
    decreases |obs|
  {
    if |obs| == 0 then {} else Ids(obs[..|obs| - 1]) + {obs[|obs| - 1].id}
  }

  /** How often `k` occurs among the observations. */
  function Occurrences(obs: seq<Observation>, k: int): nat
    decreases |obs|
  {
    if |obs| == 0 then 0
    else Occurrences(obs[..|obs| - 1], k) + (if obs[|obs| - 1].id == k then 1 else 0)
  }

  /** Every tracker is stored under its own id. */
  predicate Keyed(m: Tracks)
  {
    forall k :: k in m ==> m[k].id == k
  }

  // ------------------------------------------------------------------ lemmas

  /** Every observation's id is among the ids of the list. */
  lemma {:induction false} InIds(obs: seq<Observation>, i: int)
    requires 0 <= i < |obs|
    ensures obs[i].id in Ids(obs)
    decreases |obs|
  {
    if i < |obs| - 1 {
      InIds(obs[..|obs| - 1], i);
    }
  }

  lemma {:induction false} OccurrencesIds(obs: seq<Observation>, k: int)
    ensures Occurrences(obs, k) > 0 <==> k in Ids(obs)
    decreases |obs|
  {
    if |obs| > 0 {
      OccurrencesIds(obs[..|obs| - 1], k);
    }
  }

  /** After the first loop an id that was not observed keeps its tracker
      untouched, and every observed one is marked detected. */
  lemma {:induction false} ObserveAllEntries(tr: Trackers, stamp: bool, m: Tracks,
                                             obs: seq<Observation>, frame: int)
    requires Sound(tr)
    ensures forall k :: k in m && k !in Ids(obs) ==> ObserveAll(tr, stamp, m, obs, frame)[k] == m[k]
    ensures forall k :: k in Ids(obs) ==> ObserveAll(tr, stamp, m, obs, frame)[k].detected
    decreases |obs|
  {
    if |obs| > 0 {
      ObserveAllEntries(tr, stamp, m, obs[..|obs| - 1], frame);
    }
  }

  /** After the first loop an observed id carries the current frame as
      `lastSeen` if it was already known or occurred more than once; a new id
      observed exactly once keeps the constructor's value, 0 as written. */
  lemma {:induction false} ObserveAllLastSeen(tr: Trackers, stamp: bool, m: Tracks,
                                              obs: seq<Observation>, frame: int, k: int)
    requires Sound(tr)
    requires k in Ids(obs)
    ensures ObserveAll(tr, stamp, m, obs, frame)[k].lastSeen ==
            (if k in m || Occurrences(obs, k) >= 2 || stamp then frame else 0)
    decreases |obs|
  {
    var prefix := obs[..|obs| - 1];
    var o := obs[|obs| - 1];
    ObserveAllEntries(tr, stamp, m, prefix, frame);
    OccurrencesIds(prefix, k);
    if o.id != k {
      ObserveAllLastSeen(tr, stamp, m, prefix, frame, k);
    }
  }

  /** After the first loop an observed id sits at the position of its last
      observation: a known tracker emits its measurement verbatim and a new
      one starts there. */
  lemma {:induction false} ObserveAllPosition(tr: Trackers, stamp: bool, m: Tracks,
                                              obs: seq<Observation>, frame: int, i: int)
    requires Sound(tr)
    requires 0 <= i < |obs|
    requires forall j :: i < j < |obs| ==> obs[j].id != obs[i].id
    ensures obs[i].id in ObserveAll(tr, stamp, m, obs, frame)
    ensures ObserveAll(tr, stamp, m, obs, frame)[obs[i].id].position == obs[i].position
    decreases |obs|
  {
    ObserveAllEntries(tr, stamp, m, obs, frame);
    if i < |obs| - 1 {
      ObserveAllPosition(tr, stamp, m, obs[..|obs| - 1], frame, i);
    }
  }

  /** The key set after a frame: exactly the old keys and observed ids whose
      entry passed the deletion test, so never more than the two together. */
  lemma TrackStepKeys(tr: Trackers, oc: ObjectsConfig, stamp: bool, m: Tracks,
                      obs: seq<Observation>, frame: int, k: int)
    requires Sound(tr)
    ensures k in TrackStep(tr, oc, stamp, m, obs, frame) <==>
            (k in m || k in Ids(obs)) && !Stale(oc, ObserveAll(tr, stamp, m, obs, frame)[k], frame)
    ensures TrackStep(tr, oc, stamp, m, obs, frame).Keys <= m.Keys + Ids(obs)
  {
    ObserveAllEntries(tr, stamp, m, obs, frame);
  }

  /** Every entry left after a frame passed the removal test before coasting:
      it was seen within the timeout (coasting keeps `lastSeen`) and its
      position before coasting was inside the valid rectangle. */
  lemma TrackStepSurvivors(tr: Trackers, oc: ObjectsConfig, stamp: bool, m: Tracks,
                           obs: seq<Observation>, frame: int, k: int)
    requires Sound(tr)
    requires k in TrackStep(tr, oc, stamp, m, obs, frame)
    ensures frame - TrackStep(tr, oc, stamp, m, obs, frame)[k].lastSeen <= oc.objectTimeout
    ensures var s := ObserveAll(tr, stamp, m, obs, frame)[k];
      IsValidPos(oc.limits, s.position.x, s.position.y)
  {
  }

  /** The coast phase: every entry ends undetected; an entry detected this
      frame keeps everything else, an undetected one gets one more lost frame
      and exactly one prediction-only update. */
  lemma TrackStepCoasts(tr: Trackers, oc: ObjectsConfig, stamp: bool, m: Tracks,
                        obs: seq<Observation>, frame: int, k: int)
    requires Sound(tr)
    requires k in TrackStep(tr, oc, stamp, m, obs, frame)
    ensures var r := TrackStep(tr, oc, stamp, m, obs, frame)[k];
      var s := ObserveAll(tr, stamp, m, obs, frame)[k];
      !r.detected &&
      (s.detected ==> r == s.(detected := false)) &&
      (!s.detected ==> r == tr.update(s.(lostFrames := s.lostFrames + 1), None).(detected := false) &&
                       r.lostFrames == s.lostFrames + 1 && r.lastSeen == s.lastSeen)
  {
    TrackStepAt(tr, oc, stamp, m, obs, frame, k);
    CoastEffects(tr, ObserveAll(tr, stamp, m, obs, frame)[k]);
  }

  /** An entry left after a frame is the coasted form of its observed entry. */
  lemma TrackStepAt(tr: Trackers, oc: ObjectsConfig, stamp: bool, m: Tracks,
                    obs: seq<Observation>, frame: int, k: int)
    requires k in TrackStep(tr, oc, stamp, m, obs, frame)
    ensures k in ObserveAll(tr, stamp, m, obs, frame)
    ensures TrackStep(tr, oc, stamp, m, obs, frame)[k] == Coast(tr, ObserveAll(tr, stamp, m, obs, frame)[k])
  {
    var observed := ObserveAll(tr, stamp, m, obs, frame);
    var pruned := Prune(oc, observed, frame);
    assert k in pruned && pruned[k] == observed[k];
  }

  /** One iteration of the third loop on its own. */
  lemma CoastEffects(tr: Trackers, s: OT.TrackState)
    requires Sound(tr)
    ensures var r := Coast(tr, s);
      !r.detected &&
      (s.detected ==> r == s.(detected := false)) &&
      (!s.detected ==> r == tr.update(s.(lostFrames := s.lostFrames + 1), None).(detected := false) &&
                       r.lostFrames == s.lostFrames + 1 && r.lastSeen == s.lastSeen)
  {
    if !s.detected {
      var lost := s.(lostFrames := s.lostFrames + 1);
      assert KeepsBookkeeping(lost, None, tr.update(lost, None));
    }
  }

  /** A known id observed this frame is stamped with the frame, so with a
      non-negative timeout it can only be removed by the bounds check, applied
      to the position of its last observation. */
  lemma KnownObservedRemovedOnlyByBounds(tr: Trackers, oc: ObjectsConfig, stamp: bool,
                                         m: Tracks, obs: seq<Observation>, frame: int, i: int)
    requires Sound(tr)
    requires oc.objectTimeout >= 0
    requires 0 <= i < |obs| && obs[i].id in m
    requires forall j :: i < j < |obs| ==> obs[j].id != obs[i].id
    ensures ObserveAll(tr, stamp, m, obs, frame)[obs[i].id].lastSeen == frame
    ensures obs[i].id in TrackStep(tr, oc, stamp, m, obs, frame) <==>
            IsValidPos(oc.limits, obs[i].position.x, obs[i].position.y)
  {
    ObserveAllPosition(tr, stamp, m, obs, frame, i);
    ObserveAllEntries(tr, stamp, m, obs, frame);
    InIds(obs, i);
    ObserveAllLastSeen(tr, stamp, m, obs, frame, obs[i].id);
  }

  /** As written, a tag that appears for the first time, once, after frame
      `objectTimeout` gets a tracker whose `lastSeen` is 0, and the removal
      loop of the same call deletes it: such a tag is never tracked. */
  lemma NewTagDropped(tr: Trackers, oc: ObjectsConfig, m: Tracks,
                      obs: seq<Observation>, frame: int, k: int)
    requires Sound(tr)
    requires k !in m && Occurrences(obs, k) == 1
    requires frame > oc.objectTimeout
    ensures k !in TrackStep(tr, oc, false, m, obs, frame)
  {
    OccurrencesIds(obs, k);
    ObserveAllLastSeen(tr, false, m, obs, frame, k);
  }

  /** A concrete instance: with the default timeout of 50 frames, a tag first
      seen at frame 51 is gone after that frame's call, wherever it is. */
  lemma FirstSeenAtFrame51Dropped(cfg: KalmanConfig, num: Numerics, b: Box)
    ensures TrackStep(Kalman(cfg, num), DefaultObjects, false, map[], [Observation(7, b)], 51) == map[]
  {
    var tr := Kalman(cfg, num);
    KalmanSound(cfg, num);
    var obs := [Observation(7, b)];
    assert obs[..0] == [];
    assert Occurrences(obs, 7) == 1;
    NewTagDropped(tr, DefaultObjects, map[], obs, 51, 7);
    TrackStepKeys(tr, DefaultObjects, false, map[], obs, 51, 7);
    assert Ids(obs) == {7};
  }

  /** With new trackers stamped with the current frame, every observed tag,
      new or known, survives its frame exactly when the position of its last
      observation is valid. */
  lemma StampedTagSurvives(tr: Trackers, oc: ObjectsConfig, m: Tracks,
                           obs: seq<Observation>, frame: int, i: int)
    requires Sound(tr)
    requires oc.objectTimeout >= 0
    requires 0 <= i < |obs|
    requires forall j :: i < j < |obs| ==> obs[j].id != obs[i].id
    ensures obs[i].id in TrackStep(tr, oc, true, m, obs, frame) <==>
            IsValidPos(oc.limits, obs[i].position.x, obs[i].position.y)
  {
    ObserveAllPosition(tr, true, m, obs, frame, i);
    ObserveAllEntries(tr, true, m, obs, frame);
    InIds(obs, i);
    ObserveAllLastSeen(tr, true, m, obs, frame, obs[i].id);
  }

  /** A new id is inserted with the constructor's state and is not coasted in
      the same call, since a new tracker starts detected. */
  lemma NewTagNotCoasted(tr: Trackers, oc: ObjectsConfig, stamp: bool, m: Tracks,
                         obs: seq<Observation>, frame: int, k: int)
    requires Sound(tr)
    requires k !in m && k in Ids(obs)
    requires k in TrackStep(tr, oc, stamp, m, obs, frame)
    ensures var r := TrackStep(tr, oc, stamp, m, obs, frame)[k];
      r == ObserveAll(tr, stamp, m, obs, frame)[k].(detected := false) && r.lostFrames == 0
  {
    ObserveAllEntries(tr, stamp, m, obs, frame);
    OccurrencesIds(obs, k);
    NewTrackAfterObserveAll(tr, stamp, m, obs, frame, k);
  }

  /** An id that is new to `m` has no lost frames after the first loop. */
  lemma {:induction false} NewTrackAfterObserveAll(tr: Trackers, stamp: bool, m: Tracks,
                                                   obs: seq<Observation>, frame: int, k: int)
    requires Sound(tr)
    requires k !in m && k in Ids(obs)
    ensures ObserveAll(tr, stamp, m, obs, frame)[k].lostFrames == 0
    decreases |obs|
  {
    var prefix := obs[..|obs| - 1];
    ObserveAllEntries(tr, stamp, m, prefix, frame);
    if k in Ids(prefix) {
      NewTrackAfterObserveAll(tr, stamp, m, prefix, frame, k);
    }
  }

  /** An entry neither observed nor removed keeps its identity, flags and
      `lastSeen`; it gets one more lost frame and one prediction. `lostFrames`
      therefore counts every undetected frame, not only consecutive ones. */
  lemma UnobservedCoasts(tr: Trackers, oc: ObjectsConfig, stamp: bool, m: Tracks,
                         obs: seq<Observation>, frame: int, k: int)
    requires Sound(tr)
    requires k in m && k !in Ids(obs) && !m[k].detected
    requires k in TrackStep(tr, oc, stamp, m, obs, frame)
    ensures var r := TrackStep(tr, oc, stamp, m, obs, frame)[k];
      r.id == m[k].id && r.enabled == m[k].enabled && r.lastSeen == m[k].lastSeen && !r.detected &&
      r.lostFrames == m[k].lostFrames + 1 &&
      r == tr.update(m[k].(lostFrames := m[k].lostFrames + 1), None).(detected := false)
  {
    ObserveAllEntries(tr, stamp, m, obs, frame);
  }

  /** A frame without observations keeps a track inside the rectangle for
      exactly `objectTimeout` frames after it was last seen. */
  lemma UnobservedTimeout(tr: Trackers, oc: ObjectsConfig, stamp: bool, m: Tracks,
                          frame: int, k: int)
    requires k in m && IsValidPos(oc.limits, m[k].position.x, m[k].position.y)
    ensures k in TrackStep(tr, oc, stamp, m, [], frame) <==> frame - m[k].lastSeen <= oc.objectTimeout
  {
  }

  /** A duplicate id in one frame is created by its first occurrence and
      updated by the second. */
  lemma DuplicateInOneFrame(tr: Trackers, stamp: bool, m: Tracks,
                            o1: Observation, o2: Observation, frame: int)
    requires o1.id !in m && o2.id == o1.id
    ensures ObserveAll(tr, stamp, m, [o1, o2], frame)[o1.id] ==
            Seen(tr.update(NewTrack(tr, stamp, o1, frame), Some(o2.position)), frame)
  {
    assert [o1, o2][..1] == [o1];
    assert [o1][..0] == [];
  }

  /** Every tracker stays stored under its own id. */
  lemma {:induction false} ObserveAllKeyed(tr: Trackers, stamp: bool, m: Tracks,
                                           obs: seq<Observation>, frame: int)
    requires Sound(tr)
    requires Keyed(m)
    ensures Keyed(ObserveAll(tr, stamp, m, obs, frame))
    decreases |obs|
  {
    if |obs| > 0 {
      ObserveAllKeyed(tr, stamp, m, obs[..|obs| - 1], frame);
    }
  }

  lemma TrackStepKeyed(tr: Trackers, oc: ObjectsConfig, stamp: bool, m: Tracks,
                       obs: seq<Observation>, frame: int)
    requires Sound(tr)
    requires Keyed(m)
    ensures Keyed(TrackStep(tr, oc, stamp, m, obs, frame))
  {
    ObserveAllKeyed(tr, stamp, m, obs, frame);
  }

  // -------------------------------------------------------- tracker helpers

  /** The body of the first loop for a known id. */
  method Refresh(t: OT.ObjectTracker, z: Box, frame: int)
    requires t.Valid()
    modifies t
    ensures t.Valid()
    ensures t.State() == Seen(Kalman(t.cfg, t.num).update(old(t.State()), Some(z)), frame)
  {
    t.UpdateState(Some(z));
    t.detected := true;
    t.enabled := true;
    t.lastSeen := frame;
  }

  /** The body of the third loop. */
  method CoastTracker(t: OT.ObjectTracker)
    requires t.Valid()
    modifies t
    ensures t.Valid()
    ensures t.State() == Coast(Kalman(t.cfg, t.num), old(t.State()))
  {
    if !t.detected {
      t.lostFrames := t.lostFrames + 1;
      t.UpdateState(None);
    }
    t.detected := false;
  }

  // ------------------------------------------------------------------- class

  /** The dictionary of trackers and the configuration `track` reads. */
  class TrackManager {
    const kalman: KalmanConfig
    const num: Numerics
    const config: ObjectsConfig
    var objects: map<int, OT.ObjectTracker>
    /** Every tracker this manager has created. */
    ghost var Repr: set<OT.ObjectTracker>

    /** Every tracker uses the manager's filter configuration, and no tracker
        is stored under two ids. */
    ghost predicate Valid()
      reads this, Repr, objects.Values
    {
      (forall k :: k in objects ==> objects[k] in Repr) &&
      (forall k :: k in objects ==> objects[k].Valid() && objects[k].cfg == kalman && objects[k].num == num) &&
      (forall k, k' :: k in objects && k' in objects && k != k' ==> objects[k] != objects[k'])
    }

    /** The state of every tracker, by id. */
    function Model(): Tracks
      reads this, objects.Values
    {
      map k | k in objects :: objects[k].State()
    }

    /** The model is determined by the keys and the trackers' states. */
    lemma ModelIs(want: Tracks)
      requires forall k :: k in objects <==> k in want
      requires forall k :: k in objects ==> objects[k].State() == want[k]
      ensures Model() == want
    {
      assert forall k :: k in objects <==> k in want;
      assert forall k :: k in objects ==> objects[k].State() == want[k];
      assert forall k :: k in Model() <==> k in want;
      assert forall k :: k in want ==> Model()[k] == want[k];
    }

    constructor (kalman: KalmanConfig, num: Numerics, config: ObjectsConfig)
      ensures Valid() && Model() == map[]
      ensures this.kalman == kalman && this.num == num && this.config == config
    {
      this.kalman := kalman;
      this.num := num;
      this.config := config;
      this.objects := map[];
      this.Repr := {};
    }

    /** One iteration of the first loop. */
    method ObserveOne(o: Observation, frame: int)
      requires Valid()
      modifies this, Repr
      ensures Valid() && old(Repr) <= Repr && fresh(Repr - old(Repr))
      ensures Model() == Observe(Kalman(kalman, num), false, old(Model()), o, frame)
    {
      if o.id in objects {
        RefreshKnown(o, frame);
      } else {
        AddNew(o, frame);
      }
    }

    /** A known id: update its tracker with the measurement and mark it seen. */
    method RefreshKnown(o: Observation, frame: int)
      requires Valid() && o.id in objects
      modifies objects[o.id]
      ensures Valid()
      ensures Model() == old(Model())[o.id := Seen(Kalman(kalman, num).update(old(Model())[o.id], Some(o.position)), frame)]
    {
      ghost var want := old(Model())[o.id := Seen(Kalman(kalman, num).update(old(Model())[o.id], Some(o.position)), frame)];
      var t := objects[o.id];
      Refresh(t, o.position, frame);
      forall k | k in objects
        ensures objects[k].State() == want[k]
      {
        if k != o.id {
          assert objects[k] != t;
        }
      }
      ModelIs(want);
    }

    /** A new id: a fresh tracker, left unstamped as in the source. */
    method AddNew(o: Observation, frame: int)
      requires Valid() && o.id !in objects
      modifies this
      ensures o.id in objects && Valid() && Repr == old(Repr) + {objects[o.id]} && fresh(objects[o.id])
      ensures Model() == old(Model())[o.id := NewTrack(Kalman(kalman, num), false, o, frame)]
    {
      var t := new OT.ObjectTracker(o.id, o.position, Zero4, Zero4, kalman, num);
      assert forall k :: k in objects ==> objects[k] in Repr && objects[k] != t;
      objects := objects[o.id := t];
      Repr := Repr + {t};
      ModelIs(old(Model())[o.id := NewTrack(Kalman(kalman, num), false, o, frame)]);
    }

    /** The first loop. */
    method ObserveFrame(obs: seq<Observation>, frame: int)
      requires Valid()
      modifies this, Repr
      ensures Valid() && old(Repr) <= Repr && fresh(Repr - old(Repr))
      ensures Model() == ObserveAll(Kalman(kalman, num), false, old(Model()), obs, frame)
    {
      var i := 0;
      while i < |obs|
        invariant 0 <= i <= |obs|
        invariant Valid()
        invariant Model() == ObserveAll(Kalman(kalman, num), false, old(Model()), obs[..i], frame)
        invariant old(Repr) <= Repr && fresh(Repr - old(Repr))
      {
        ObserveOne(obs[i], frame);
        assert obs[..i + 1][..i] == obs[..i];
        i := i + 1;
      }
      assert obs[..|obs|] == obs;
    }

    /** The second loop: every key is checked once and deleted if stale. */
    method RemoveStale(frame: int)
      requires Valid()
      modifies this
      ensures Valid() && Repr == old(Repr)
      ensures Model() == Prune(config, old(Model()), frame)
      ensures forall k :: k in objects ==> k in old(objects) && objects[k] == old(objects)[k]
    {
      var live := Survivors(objects, frame);
      objects := live;
      ModelIs(Prune(config, old(Model()), frame));
    }

    /** The trackers of `m` that are not stale at `frame`, `m` itself left alone. */
    method Survivors(m: map<int, OT.ObjectTracker>, frame: int) returns (live: map<int, OT.ObjectTracker>)
      ensures forall k :: k in live ==> k in m && live[k] == m[k]
      ensures forall k :: k in m ==> (k in live <==> !Stale(config, m[k].State(), frame))
    {
      live := m;
      var keys := m.Keys;
      while keys != {}
        invariant keys <= live.Keys <= m.Keys
        invariant forall k :: k in live ==> live[k] == m[k]
        invariant forall k :: k in m && k !in keys ==> (k in live <==> !Stale(config, m[k].State(), frame))
        decreases keys
      {
        NonEmptyHasElement(keys);
        var k :| k in keys;
        var v := live[k];
        if frame - v.lastSeen > config.objectTimeout || !IsValidPos(config.limits, v.position.x, v.position.y) {
          live := live - {k};
        }
        keys := keys - {k};
      }
    }

    /** The third loop: coast every undetected tracker, clear every flag. */
    method CoastUndetected()
      requires Valid()
      modifies Repr
      ensures Valid()
      ensures Model() == CoastAll(Kalman(kalman, num), old(Model()))
    {
      ghost var before := Model();
      ghost var want := CoastAll(Kalman(kalman, num), before);
      var keys := objects.Keys;
      while keys != {}
        invariant Valid() && keys <= objects.Keys && CoastedExcept(keys, before, want)
        decreases keys
      {
        NonEmptyHasElement(keys);
        var k :| k in keys;
        CoastOne(k, keys, before, want);
        keys := keys - {k};
      }
      ModelIs(want);
    }

    /** While the third loop runs: the trackers still under `keys` hold their
        states from before the loop, every other one its coasted state. */
    ghost predicate CoastedExcept(keys: set<int>, before: Tracks, want: Tracks)
      reads this, objects.Values
    {
      forall j :: j in objects ==>
        j in before && j in want && objects[j].State() == if j in keys then before[j] else want[j]
    }

    /** One iteration of the third loop: the tracker under `k` is coasted and
        no other tracker changes. */
    method CoastOne(k: int, ghost keys: set<int>, ghost before: Tracks, ghost want: Tracks)
      requires Valid() && k in keys && k in objects
      requires want == CoastAll(Kalman(kalman, num), before)
      requires CoastedExcept(keys, before, want)
      modifies objects[k]
      ensures Valid() && CoastedExcept(keys - {k}, before, want)
    {
      var t := objects[k];
      CoastTracker(t);
    }

    /** `track`: the three phases in order. */
    method Track(obs: seq<Observation>, frame: int)
      requires Valid()
      modifies this, Repr
      ensures Valid() && old(Repr) <= Repr && fresh(Repr - old(Repr))
      ensures Model() == TrackStep(Kalman(kalman, num), config, false, old(Model()), obs, frame)
    {
      ObserveFrame(obs, frame);
      RemoveStale(frame);
      CoastUndetected();
    }
  }
}
