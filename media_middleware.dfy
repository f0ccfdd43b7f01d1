/**
 * The media middleware of features/base/media/middleware.js: after every
 * action has gone on to `next`, CONFERENCE_LEFT resets the media state to its
 * defaults and TRACK_ADDED for a local track reconciles the track's `muted`
 * flag with the store's mute intent for its media type.
 *
 * Everything the middleware does to the outside world (calling `next`,
 * dispatching to the store, calling setTrackMuted) is recorded, in order, in
 * the log of a Middleware object.
 */
module MediaMiddleware {
  import opened Media

  /** The opaque jitsiTrack handle; the middleware only passes it on. */
  datatype TrackHandle = TrackHandle(id: nat)

  /** A media track as carried by TRACK_ADDED; only `muted` is ever written. */
  class Track {
    const mediaType: MediaType
    const local: bool
    const jitsiTrack: TrackHandle
    var muted: bool

    constructor (mediaType: MediaType, local: bool, muted: bool, jitsiTrack: TrackHandle)
      ensures this.mediaType == mediaType && this.local == local
      ensures this.muted == muted && this.jitsiTrack == jitsiTrack
    {
      this.mediaType := mediaType;
      this.local := local;
      this.muted := muted;
      this.jitsiTrack := jitsiTrack;
    }
  }

  /**
   * The actions that reach the middleware: the two it reacts to, the media
   * state changes (which include the reset's own dispatches), and every other
   * action type. The string of OtherAction is only a label: the constructor
   * itself stands for an action of a type other than the three above.
   */
  datatype Action =
    | ConferenceLeft
    | TrackAdded(track: Track)
    | MediaChanged(change: MediaAction)
    | OtherAction(actionType: string)

  /** The error setTrackMuted may raise; its content is opaque. */
  datatype MuteError = MuteError(reason: string)

  /** How a setTrackMuted call turns out: it returns, or it raises. */
  datatype MuteOutcome = MuteDone | MuteFailed(error: MuteError)

  /** What the middleware hands back: next's result, or the error it let through. */
  datatype Result<R> = Success(value: R) | Failure(error: MuteError)

  datatype Effect =
    | Next(action: Action)
    | Dispatch(change: MediaAction)
    | SetTrackMuted(jitsiTrack: TrackHandle, muted: bool)

  /** Dispatching each of `p`: one dispatch per action, and nothing else. */
  function Dispatches(p: seq<MediaAction>): (r: seq<Effect>)
    ensures |r| == |p|
    ensures forall e :: e in r ==> e.Dispatch? && e.change in p
    ensures forall a :: a in p ==> Dispatch(a) in r
  {
    var r := seq(|p|, i requires 0 <= i < |p| => Dispatch(p[i]));
    assert forall i :: 0 <= i < |p| ==> r[i] == Dispatch(p[i]);
    r
  }

  /** The store's mute intent for a media type: mediaState[track.mediaType].muted. */
  function Intent(s: MediaState, t: MediaType): bool
  {
    match t
    case Audio => s.audio.muted
    case Video => s.video.muted
  }

  /**
   * The commands syncTrackMutedState issues for a track whose flag is
   * `trackMuted` when the store's intent is `intent`: none when they agree,
   * and otherwise a single setTrackMuted carrying the store's value.
   */
  function SyncCommands(trackMuted: bool, intent: bool, h: TrackHandle): (r: seq<Effect>)
    ensures |r| <= 1
    ensures r == [] <==> trackMuted == intent
    ensures forall e :: e in r ==> e == SetTrackMuted(h, intent)
  {
    if trackMuted != intent then [SetTrackMuted(h, intent)] else []
  }

  function TrackOf(action: Action): set<object>
  {
    if action.TrackAdded? then {action.track} else {}
  }

  /**
   * What the middleware's handler does after `next`, given the store state `s`
   * it then reads.
   */
  function Reaction(action: Action, s: MediaState): (r: seq<Effect>)
    reads TrackOf(action)
    ensures forall e :: e in r ==> !e.Next?
    ensures !action.ConferenceLeft? ==> forall e :: e in r ==> !e.Dispatch?
    ensures !(action.TrackAdded? && action.track.local) ==> forall e :: e in r ==> !e.SetTrackMuted?
    ensures action.TrackAdded? && !action.track.local ==> r == []
    ensures action.MediaChanged? || action.OtherAction? ==> r == []
  {
    match action
    case ConferenceLeft => Dispatches(ResetActions(s))
    case TrackAdded(t) =>
      if t.local then SyncCommands(t.muted, Intent(s, t.mediaType), t.jitsiTrack) else []
    case MediaChanged(_) => []
    case OtherAction(_) => []
  }

  /** On CONFERENCE_LEFT the handler dispatches, per field, one corrective action iff the field is off its default. */
  lemma ConferenceLeftDispatchesReset(s: MediaState, f: Field)
    ensures Dispatch(Corrective(f)) in Reaction(ConferenceLeft, s) <==> !AtDefault(s, f)
    ensures |Reaction(ConferenceLeft, s)| == |NonDefaultFields(s)|
  {
  }

  /**
   * Everything the CONFERENCE_LEFT handler emits is a dispatch, and each one,
   * coming back through the middleware as a media state change, provokes
   * nothing further. A corollary of Reaction's contract.
   */
  lemma ResetDispatchesDoNotReenter(s: MediaState, t: MediaState)
    ensures forall e :: e in Reaction(ConferenceLeft, s) ==>
              e.Dispatch? && Reaction(MediaChanged(e.change), t) == []
  {
  }

  class Middleware {
    /** Every call this middleware has made to next, dispatch and setTrackMuted, in order. */
    var log: seq<Effect>

    constructor ()
      ensures log == []
    {
      log := [];
    }

    /** resetInitialMediaState: the snapshot `s` is read once, before any dispatch. */
    method ResetInitialMediaState(s: MediaState)
      modifies this
      ensures log == old(log) + Dispatches(ResetActions(s))
    {
      ghost var before := log;
      if s.audio.muted {
        log := log + [Dispatch(AudioMutedStateChanged(false))];
      }
      if s.video.facingMode != User {
        log := log + [Dispatch(CameraFacingModeChanged(User))];
      }
      if s.video.muted {
        log := log + [Dispatch(VideoMutedStateChanged(false))];
      }
      assert log == before + Dispatches(ResetActions(s));
    }

    /**
     * syncTrackMutedState: the track's flag is overwritten before setTrackMuted
     * runs, so it holds the store's intent afterwards even when that call raises
     * (`hardware` says how the call turns out; its error is passed on).
     */
    method SyncTrackMutedState(s: MediaState, track: Track, hardware: MuteOutcome) returns (outcome: MuteOutcome)
      modifies this, track
      ensures track.muted == Intent(s, track.mediaType)
      ensures log == old(log) + SyncCommands(old(track.muted), Intent(s, track.mediaType), track.jitsiTrack)
      ensures outcome == if old(track.muted) == Intent(s, track.mediaType) then MuteDone else hardware
    {
      var isMuted := Intent(s, track.mediaType);
      outcome := MuteDone;
      if track.muted != isMuted {
        track.muted := isMuted;
        log := log + [SetTrackMuted(track.jitsiTrack, isMuted)];
        outcome := hardware;
      }
    }

    /**
     * Reconciliation is idempotent: a second syncTrackMutedState on the same track
     * and state issues no command and cannot fail.
     */
    method SyncTwice(s: MediaState, track: Track, hardware: MuteOutcome) returns (first: MuteOutcome, second: MuteOutcome)
      modifies this, track
      ensures track.muted == Intent(s, track.mediaType)
      ensures log == old(log) + SyncCommands(old(track.muted), Intent(s, track.mediaType), track.jitsiTrack)
      ensures first == if old(track.muted) == Intent(s, track.mediaType) then MuteDone else hardware
      ensures second == MuteDone
    {
      first := SyncTrackMutedState(s, track, hardware);
      ghost var afterFirst := log;
      second := SyncTrackMutedState(s, track, hardware);
      assert log == afterFirst;
    }

    /**
     * The middleware itself: `nextResult` is what next(action) returns and `s`
     * the media state the store holds once it has returned. next is called once,
     * before the handler; its result is returned unchanged unless setTrackMuted
     * raised, in which case the error propagates.
     */
    method Handle<R>(action: Action, nextResult: R, s: MediaState, hardware: MuteOutcome) returns (r: Result<R>)
      modifies this, TrackOf(action)
      ensures log == old(log) + [Next(action)] + old(Reaction(action, s))
      ensures action.TrackAdded? && action.track.local ==> action.track.muted == Intent(s, action.track.mediaType)
      ensures !(action.TrackAdded? && action.track.local) ==> unchanged(TrackOf(action))
      ensures r.Failure? <==> hardware.MuteFailed? && action.TrackAdded? && action.track.local
                                && old(action.track.muted) != Intent(s, action.track.mediaType)
      ensures r.Success? ==> r.value == nextResult
      ensures r.Failure? ==> r.error == hardware.error
    {
      log := log + [Next(action)];
      r := Success(nextResult);
      match action
      case ConferenceLeft =>
        ResetInitialMediaState(s);
      case TrackAdded(track) =>
        if track.local {
          var outcome := SyncTrackMutedState(s, track, hardware);
          if outcome.MuteFailed? {
            r := Failure(outcome.error);
          }
        }
      case MediaChanged(_) =>
      case OtherAction(_) =>
    }
  }

  /** A local audio track created muted while the store says unmuted is unmuted, once. */
  method ScenarioStaleLocalTrack()
  {
    var m := new Middleware();
    var h := TrackHandle(7);
    var audio := new Track(Audio, true, true, h);
    var r := m.Handle(TrackAdded(audio), 1, DefaultMediaState, MuteDone);
    assert !audio.muted && r == Success(1);
    assert m.log == [Next(TrackAdded(audio)), SetTrackMuted(h, false)];
    r := m.Handle(TrackAdded(audio), 2, DefaultMediaState, MuteDone);
    assert m.log == [Next(TrackAdded(audio)), SetTrackMuted(h, false), Next(TrackAdded(audio))];
  }

  /** A local video track that already agrees with the store, and a remote track, are left alone. */
  method ScenarioNothingToSync()
  {
    var m := new Middleware();
    var h := TrackHandle(7);
    var video := new Track(Video, true, false, h);
    var r := m.Handle(TrackAdded(video), 3, DefaultMediaState, MuteDone);
    assert !video.muted && m.log == [Next(TrackAdded(video))];
    var remote := new Track(Audio, false, true, h);
    r := m.Handle(TrackAdded(remote), 4, DefaultMediaState, MuteFailed(MuteError("no device")));
    assert remote.muted && r == Success(4);
    assert m.log == [Next(TrackAdded(video)), Next(TrackAdded(remote))];
  }

  /** A failing setTrackMuted propagates, with the track's flag already corrected. */
  method ScenarioMuteFails()
  {
    var m := new Middleware();
    var h := TrackHandle(7);
    var audio := new Track(Audio, true, false, h);
    var r := m.Handle(TrackAdded(audio), 5, MediaState(AudioState(true), VideoState(false, User)), MuteFailed(MuteError("no device")));
    assert audio.muted && r == Failure(MuteError("no device"));
    assert m.log == [Next(TrackAdded(audio)), SetTrackMuted(h, true)];
  }

  /** Leaving a conference with every field off default, then leaving again from the defaults. */
  method ScenarioConferenceLeft()
  {
    var off := MediaState(AudioState(true), VideoState(true, Environment));
    var m := new Middleware();
    var r := m.Handle(ConferenceLeft, 6, off, MuteDone);
    assert m.log == [Next(ConferenceLeft), Dispatch(AudioMutedStateChanged(false)),
                     Dispatch(CameraFacingModeChanged(User)), Dispatch(VideoMutedStateChanged(false))];
    ResetRestoresDefault(off);
    m := new Middleware();
    r := m.Handle(ConferenceLeft, 7, ApplyAll(off, ResetActions(off)), MuteDone);
    assert m.log == [Next(ConferenceLeft)];
  }
}
