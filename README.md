# Media state middleware of jitsi-meet-react, in Dafny

This project models the Redux middleware in `features/base/media/middleware.js`. It
keeps the media part of the application state (`features/base/media`) consistent with
the local media tracks. Every action first goes on to `next`. Then:

- on `CONFERENCE_LEFT`, `resetInitialMediaState` puts audio mute, video mute and the
  camera facing mode back to their session-start defaults (`false`, `false`, `USER`).
  It dispatches a corrective action only for a field that is off its default.
- on `TRACK_ADDED` for a local track, `syncTrackMutedState` compares the track's own
  `muted` flag with the store's mute intent for the track's media type. When they
  differ, it overwrites the flag and calls `setTrackMuted` with the store's value.

Files:

- `media_state.dfy`, module `Media`: the state snapshot (`MediaState` with its `audio`
  and `video` parts), the three state-change actions, the reset as a pure function of
  the snapshot (`ResetActions`), and the lemmas about it.
- `media_middleware.dfy`, module `MediaMiddleware`: the `Track` class, whose `muted`
  field is the one thing written in place; the incoming `Action`; the `Effect` log of
  calls to `next`, `dispatch` and `setTrackMuted`; and the class `Middleware`, whose
  methods `Handle`, `ResetInitialMediaState` and `SyncTrackMutedState` follow the three
  parts of the source. Each method is specified by a function (`Reaction`,
  `ResetActions`, `SyncCommands`), and the properties are proved about those functions.
  Four scenario methods check concrete cases against the contracts: a stale local
  track, a track with nothing to sync, a failing mute call, leaving twice.

Modelling choices:

- The store is not modelled. `Handle` takes two parameters for what `next(action)`
  does: the value it returns and the media state the store holds afterwards. The
  handler reads that state.
- `resetInitialMediaState` reads the state once (line 45), before it dispatches
  anything. So its own dispatches cannot change what it checks, and it is a function
  of that one snapshot.
- The reducers are not part of this model. To state that the reset "restores the
  defaults", `Media.Apply` takes each action to set the one field it names to the
  value it carries. `ApplyAll` is sequential dispatch.
- The action creators and `setTrackMuted` are opaque. An action is the value it
  carries. A `setTrackMuted` call is a log entry, and its outcome is a parameter
  (`MuteOutcome`). A failure propagates out of `Handle` as `Failure`, and `next`'s
  result is then not returned.
- The `jitsiTrack` handle is an opaque `TrackHandle`. It is passed on and never
  inspected.

Two facts about the code:

- A missing `audio` entry throws at line 49 and a missing `video` entry at line 55;
  the typed `MediaState` cannot express either.
- `track.muted` is assigned (line 82) before `setTrackMuted` runs (line 83), with no
  rollback. `SyncTrackMutedState` leaves the flag corrected when the call fails.

## Model

| member | source | states |
|---|---|---|
| `Media.CorrectiveTouchesOnlyItsField` | features/base/media/middleware.js:49-62 | each field's corrective action (`audioMutedStateChanged(false)`, `cameraFacingModeChanged(USER)`, `videoMutedStateChanged(false)`) puts that field at its default and leaves every other field's default-status as it was |
| `Media.ResetActions` | features/base/media/middleware.js:43-63 | the reset dispatches at most three actions, all corrective, at most one per field, and the corrective action for a field is among them exactly when that field is off its default |
| `Media.ResetPerField` | features/base/media/middleware.js:49-62 | for each field, the reset's actions on that field are exactly one corrective action when the field is off its default, and none when it is at its default |
| `Media.ResetIsMinimal` | features/base/media/middleware.js:43-63 | the number of dispatched actions equals the number of fields off their default |
| `Media.ResetIsEmptyIffDefault` | features/base/media/middleware.js:49-62 | nothing is dispatched if and only if the snapshot is the all-default state |
| `Media.ApplyAllCorrective` | features/base/media/middleware.js:49-62 | dispatching corrective actions, in any order and with repeats, puts exactly the fields they name at default and leaves every other field's default-status as it was |
| `Media.ResetRestoresDefault` | features/base/media/middleware.js:43-63 | applying the reset's actions to the snapshot yields the all-default state |
| `Media.ResetInAnyOrderRestoresDefault` | features/base/media/middleware.js:43-63 | the three checks are order-insensitive: the reset's actions in any order, mixed with other corrective actions, still yield the all-default state |
| `Media.ResetIsIdempotent` | features/base/media/middleware.js:43-63 | a second reset, on the state the first produced, dispatches nothing |
| `MediaMiddleware.SyncCommands` | features/base/media/middleware.js:81-84 | no command when the track's flag equals the store's intent; otherwise exactly one `setTrackMuted`, carrying the store's value and the track's handle |
| `MediaMiddleware.Middleware.SyncTwice` | features/base/media/middleware.js:72-85 | reconciling the same track twice against the same state: the second pass leaves the log as the first left it and reports `MuteDone`, and the flag equals the store's intent |
| `MediaMiddleware.Reaction` | features/base/media/middleware.js:22-32 | the handler never calls `next`; only `CONFERENCE_LEFT` dispatches; only a local `TRACK_ADDED` issues `setTrackMuted`; a remote track, a media-state change or any other action produces nothing |
| `MediaMiddleware.ConferenceLeftDispatchesReset` | features/base/media/middleware.js:23-25 | on `CONFERENCE_LEFT` the handler dispatches a field's corrective action if and only if that field is off its default, and dispatches as many actions as there are such fields |
| `MediaMiddleware.ResetDispatchesDoNotReenter` | features/base/media/middleware.js:22-32 | every entry the `CONFERENCE_LEFT` handler emits is a dispatch, and that dispatch, when it comes back through the middleware, provokes nothing further (a corollary of `Reaction`'s contract) |
| `MediaMiddleware.Middleware.ResetInitialMediaState` | features/base/media/middleware.js:43-63 | the log grows by exactly the dispatches of `ResetActions` for the snapshot, in the source's order (audio, facing mode, video) |
| `MediaMiddleware.Middleware.SyncTrackMutedState` | features/base/media/middleware.js:72-85 | afterwards `track.muted` equals the store's intent for `track.mediaType`; the log grows by `SyncCommands` of the old flag; a mute failure is reported only when the call was made |
| `MediaMiddleware.Middleware.Handle` | features/base/media/middleware.js:19-35 | the log grows by one `next(action)` followed by the handler's `Reaction`; a local added track ends up agreeing with the store; any other action leaves the track unchanged; `next`'s result is returned unchanged unless a `setTrackMuted` that was made failed, whose error then propagates |

## Left out

- The store (`MiddlewareRegistry.register`, `getState`, `dispatch`) and the reducers: the store's value after `next` is a parameter, and the effect of the corrective actions (`Media.Apply`) is an assumption stated above, not something the source shows.
- The action creators in `./actions` and `setTrackMuted` in `../tracks`: they are opaque values and log entries. `setTrackMuted`'s only modelled behaviour is that its failure propagates.
- The timing of events and the race described at features/base/media/middleware.js:76-80: the model covers only the synchronous reconciliation step.
- `next` is taken to return normally and to leave `action.track` alone, so the flag the handler reads at line 81 is the one the track had on entry; `dispatch` is taken never to raise.
- A `mediaType` other than audio or video, and a state with missing entries: JavaScript would throw on these, and the typed model cannot express them.
- features/media/components/native/Audio.js: a React Native view with no logic beyond a null check on its stream.
