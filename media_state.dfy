/**
 * The media slice of the application state ('features/base/media'), the three
 * state-change actions that the session-end reset dispatches, and the reset
 * itself (resetInitialMediaState in features/base/media/middleware.js).
 */
module Media {

  datatype FacingMode = User | Environment

  datatype MediaType = Audio | Video

  datatype AudioState = AudioState(muted: bool)

  datatype VideoState = VideoState(muted: bool, facingMode: FacingMode)

  /** The snapshot the middleware reads with getState()['features/base/media']. */
  datatype MediaState = MediaState(audio: AudioState, video: VideoState)

  /** Session-start defaults: audio and video unmuted, the user-facing camera. */
  const DefaultMediaState := MediaState(AudioState(false), VideoState(false, User))

  /** The three fields the reset looks at. */
  datatype Field = AudioMuted | VideoMuted | CameraFacingMode

  predicate AtDefault(s: MediaState, f: Field)
  {
    match f
    case AudioMuted => !s.audio.muted
    case VideoMuted => !s.video.muted
    case CameraFacingMode => s.video.facingMode == User
  }

  /** The fields of `s` that are not at their session-start default. */
  function NonDefaultFields(s: MediaState): (r: set<Field>)
    ensures forall f :: f in r <==> !AtDefault(s, f)
  {
    (if s.audio.muted then {AudioMuted} else {})
    + (if s.video.muted then {VideoMuted} else {})
    + (if s.video.facingMode != User then {CameraFacingMode} else {})
  }

  lemma DefaultIffAllFieldsAtDefault(s: MediaState)
    ensures s == DefaultMediaState <==> forall f :: AtDefault(s, f)
  {
    if forall f :: AtDefault(s, f) {
      assert AtDefault(s, AudioMuted) && AtDefault(s, VideoMuted) && AtDefault(s, CameraFacingMode);
    }
  }

  /**
   * The state-change actions built by audioMutedStateChanged,
   * videoMutedStateChanged and cameraFacingModeChanged. Their creators are
   * opaque; an action is the value it carries.
   */
  datatype MediaAction =
    | AudioMutedStateChanged(muted: bool)
    | VideoMutedStateChanged(muted: bool)
    | CameraFacingModeChanged(facingMode: FacingMode)

  function FieldOf(a: MediaAction): Field
  {
    match a
    case AudioMutedStateChanged(_) => AudioMuted
    case VideoMutedStateChanged(_) => VideoMuted
    case CameraFacingModeChanged(_) => CameraFacingMode
  }

  /** The action that puts field `f` back to its default. */
  function Corrective(f: Field): (a: MediaAction)
    ensures FieldOf(a) == f
  {
    match f
    case AudioMuted => AudioMutedStateChanged(false)
    case VideoMuted => VideoMutedStateChanged(false)
    case CameraFacingMode => CameraFacingModeChanged(User)
  }

  predicate IsCorrective(a: MediaAction)
  {
    a == Corrective(FieldOf(a))
  }

  /**
   * What the store does with a dispatched action. The reducers are not part of
   * this model; each action is taken to set the one field it names to the value
   * it carries and to leave the other fields alone.
   */
  function Apply(s: MediaState, a: MediaAction): (t: MediaState)
    ensures forall f :: f != FieldOf(a) ==> (AtDefault(t, f) <==> AtDefault(s, f))
    ensures IsCorrective(a) ==> AtDefault(t, FieldOf(a))
  {
    match a
    case AudioMutedStateChanged(m) => s.(audio := s.audio.(muted := m))
    case VideoMutedStateChanged(m) => s.(video := s.video.(muted := m))
    case CameraFacingModeChanged(mode) => s.(video := s.video.(facingMode := mode))
  }

  /** A corrective action puts its own field at default and no other field changes status. */
  lemma CorrectiveTouchesOnlyItsField(s: MediaState, f: Field)
    ensures AtDefault(Apply(s, Corrective(f)), f)
    ensures forall g :: g != f ==> (AtDefault(Apply(s, Corrective(f)), g) <==> AtDefault(s, g))
  {
  }

  /** Dispatching a sequence of actions one after another. */
  function ApplyAll(s: MediaState, p: seq<MediaAction>): MediaState
    decreases |p|
  {
    if p == [] then s else ApplyAll(Apply(s, p[0]), p[1..])
  }

  /** The actions in `p` that change field `f`, in order. */
  function ActionsFor(p: seq<MediaAction>, f: Field): seq<MediaAction>
    decreases |p|
  {
    if p == [] then []
    else (if FieldOf(p[0]) == f then [p[0]] else []) + ActionsFor(p[1..], f)
  }

  /**
   * The actions resetInitialMediaState dispatches for the snapshot `s`, in the
   * order it dispatches them: one corrective action per field that is off its
   * default, and none for a field already at its default.
   */
  function ResetActions(s: MediaState): (r: seq<MediaAction>)
    ensures |r| <= 3
    ensures forall a :: a in r ==> IsCorrective(a)
    ensures forall f :: Corrective(f) in r <==> !AtDefault(s, f)
    ensures forall i, j :: 0 <= i < j < |r| ==> FieldOf(r[i]) != FieldOf(r[j])
  {
    (if s.audio.muted then [AudioMutedStateChanged(false)] else [])
    + (if s.video.facingMode != User then [CameraFacingModeChanged(User)] else [])
    + (if s.video.muted then [VideoMutedStateChanged(false)] else [])
  }

  /**
   * Dispatching corrective actions in any order, with repeats, puts exactly the
   * fields they name back to default and leaves the rest as they were.
   */
  lemma {:induction false} ApplyAllCorrective(s: MediaState, p: seq<MediaAction>)
    requires forall a :: a in p ==> IsCorrective(a)
    ensures forall f :: AtDefault(ApplyAll(s, p), f) <==> (AtDefault(s, f) || Corrective(f) in p)
    decreases |p|
  {
    if p != [] {
      var t := Apply(s, p[0]);
      assert forall a :: a in p[1..] ==> a in p;
      ApplyAllCorrective(t, p[1..]);
      forall f
        ensures AtDefault(ApplyAll(s, p), f) <==> (AtDefault(s, f) || Corrective(f) in p)
      {
        assert p == [p[0]] + p[1..];
        assert Corrective(f) in p <==> Corrective(f) == p[0] || Corrective(f) in p[1..];
        assert Corrective(f) == p[0] <==> f == FieldOf(p[0]);
      }
    }
  }

  /** In a sequence of corrective actions on distinct fields, each field has at most one. */
  lemma {:induction false} ActionsForDistinct(p: seq<MediaAction>, f: Field)
    requires forall a :: a in p ==> IsCorrective(a)
    requires forall i, j :: 0 <= i < j < |p| ==> FieldOf(p[i]) != FieldOf(p[j])
    ensures ActionsFor(p, f) == if Corrective(f) in p then [Corrective(f)] else []
    decreases |p|
  {
    if p != [] {
      var q := p[1..];
      assert forall a :: a in q ==> a in p;
      assert forall i, j :: 0 <= i < j < |q| ==> FieldOf(q[i]) == FieldOf(p[i + 1]) && FieldOf(q[j]) == FieldOf(p[j + 1]);
      ActionsForDistinct(q, f);
      assert p == [p[0]] + q;
      if FieldOf(p[0]) == f {
        assert p[0] in p;
      } else {
        assert Corrective(f) != p[0];
      }
    }
  }

  /**
   * Per field: a field off its default gets exactly one corrective action, a
   * field at its default gets none.
   */
  lemma ResetPerField(s: MediaState, f: Field)
    ensures ActionsFor(ResetActions(s), f) == if AtDefault(s, f) then [] else [Corrective(f)]
  {
    ActionsForDistinct(ResetActions(s), f);
  }

  /** The reset dispatches as many actions as there are fields off their default. */
  lemma ResetIsMinimal(s: MediaState)
    ensures |ResetActions(s)| == |NonDefaultFields(s)|
  {
  }

  /** Nothing is dispatched exactly when the snapshot is already the default state. */
  lemma ResetIsEmptyIffDefault(s: MediaState)
    ensures ResetActions(s) == [] <==> s == DefaultMediaState
  {
  }

  /** Dispatching the reset's actions yields the all-default state. */
  lemma ResetRestoresDefault(s: MediaState)
    ensures ApplyAll(s, ResetActions(s)) == DefaultMediaState
  {
    ResetInAnyOrderRestoresDefault(s, ResetActions(s));
  }

  /**
   * The reset's checks are order-insensitive: its actions, dispatched in any
   * order and together with any other corrective actions, still yield the
   * default state.
   */
  lemma ResetInAnyOrderRestoresDefault(s: MediaState, p: seq<MediaAction>)
    requires forall a :: a in p ==> IsCorrective(a)
    requires forall a :: a in ResetActions(s) ==> a in p
    ensures ApplyAll(s, p) == DefaultMediaState
  {
    ApplyAllCorrective(s, p);
    var t := ApplyAll(s, p);
    forall f ensures AtDefault(t, f) {
      if !AtDefault(s, f) {
        assert Corrective(f) in ResetActions(s);
      }
    }
    DefaultIffAllFieldsAtDefault(t);
  }

  /** A second reset, on the state the first one produced, dispatches nothing. */
  lemma ResetIsIdempotent(s: MediaState)
    ensures ResetActions(ApplyAll(s, ResetActions(s))) == []
  {
    ResetRestoresDefault(s);
  }
}
