# Recording session of the Expo data collector

This project models the recording session of a field data-logging app (`App.js`).
A location producer and three motion producers (accelerometer, gyroscope,
magnetometer) overwrite a latest-value cache. While recording is on, a sampling
timer fires once per period. Each firing builds one composite record from the
cache, the selected activity, the device id and a timestamp. It appends that
record to the device's dataset file by a read-modify-rewrite. If the read or the
parse fails, the file is replaced by a one-element array. The user can start and
stop recording, pick an activity while not recording, clear the dataset and
share it.

Layout:

- `records.dfy` (module `Records`): activities and the codes the picker offers them under, location
  fixes, motion readings, composite records.
- `cache.dfy` (module `Cache`): the channel update and what a sequence of updates
  leaves in the cache.
- `dataset.dfy` (module `Dataset`): the file, seen as `Missing | Unparsable |
  Array(seq<Record>)`. It also holds the specification of one store and of a
  run of stores.
- `session.dfy` (module `Session`): the class `RecordingSession`, whose fields
  the handlers overwrite, with one method per handler. `Valid()` is its invariant.
  While recording exactly one timer is live and none otherwise. Every record built
  since Start carries the device id and the activity now selected, because the
  picker refuses changes while recording. The sensor cache is always the result
  of the sensor updates delivered so far, applied in arrival order. Suppose every
  store since the last Start or reset has read the file and rewritten it. If the
  file at that point was an array, it now holds that array followed by the stored
  records in tick order. Otherwise it holds exactly the stored records, because
  the first store discarded it. `EndToEnd` is a client that runs one recording
  through start, one tick, stop and reset.

Inputs taken as given: the device id (read once at mount from the platform), each
tick's timestamp, and whether a store's read and rewrite of the file both succeed
(`rewriteOk`; a failed read of a healthy array file ends in the same fallback as a
failed rewrite). Also given: whether sharing is available and whether a share
succeeds. The file's name is derived from the device id, so the
model keeps one file per session object.

## Model

| member | source | states |
|---|---|---|
| Records.Code | App.js:165-170 | the picker offers every activity under a one-character code from "1" to "6" |
| Records.CodeInjective | App.js:165-170 | distinct activities are offered under distinct codes |
| Cache.UpdateChannel | App.js:146-148 | the updated channel holds the new reading; every other channel keeps its entry; the key set grows by that name only |
| Cache.ApplyUpdatesSnoc | App.js:146-148 | applying one more update after a sequence of updates gives the same cache as applying the extended sequence |
| Cache.ApplyUpdatesLatest | App.js:146-148 | after any sequence of producer updates, a channel holds the reading of its latest update, or its earlier entry if it got none; it is present exactly when one of these exists |
| Dataset.AfterStore | App.js:30-46 | after a store the file is an array ending with the record; when the file held an array and its read and rewrite succeeded, the earlier records are unchanged and in order; on every other path the array is exactly the one record |
| Dataset.StoreAllAppends | App.js:32-39 | successive successful stores onto an array keep its records and add the new ones after them, in tick order |
| Dataset.StoreAllFromEmpty | App.js:54-64 | n ticks after a reset, with every rewrite successful, leave exactly those n records, in tick order |
| Dataset.StoreAllAfterFailure | App.js:40-45 | a missing or unparsable file is discarded by the first store; with every later rewrite successful, only the records stored from then on remain |
| Dataset.ResetThenStore | App.js:131-135 | the first store after a reset yields exactly the one record |
| Session.RecordingSession.constructor | App.js:21-26 | a new session is not recording, has Walk selected, has no location and an empty sensor cache, and keeps the file as found |
| Session.RecordingSession.UpdateLocation | App.js:196-198 | a new fix replaces the cached location |
| Session.RecordingSession.UpdateSensor | App.js:146-148 | a new reading replaces the entry of its channel only, and joins the history of delivered updates that the cache is the result of |
| Session.RecordingSession.SelectActivity | App.js:156-161 | while recording the activity stays and the advisory is raised; otherwise the chosen activity is taken and there is no advisory |
| Session.RecordingSession.Start | App.js:49-66 | allowed only when not recording; afterwards recording is on and exactly one timer is live |
| Session.RecordingSession.StoreData | App.js:30-46 | the file becomes the result of one store of the record; only `Tick` calls it |
| Session.RecordingSession.Tick | App.js:54-64 | builds exactly one record from the current location, the whole sensor cache, the activity, the device id and the timestamp, and stores it; each channel in the record holds its latest delivered reading, and exactly the channels that have received one appear; with every store since the last Start or reset successful, the file is the starting array followed by the stored records in tick order, or exactly the stored records when the starting file was missing or unparsable |
| Session.RecordingSession.Stop | App.js:89-102 | allowed only while recording; afterwards recording is off and no timer is live; the read-back fails only for a missing file and leaves the file unchanged |
| Session.RecordingSession.ResetDataset | App.js:131-135 | the file becomes the empty array whether or not recording is on |
| Session.RecordingSession.Share | App.js:104-113 | allowed only when not recording; ends without an alert exactly when sharing is available and succeeds; reports unavailability as its own alert; changes nothing |

## Left out

- Rendering, styles, the picker and button widgets, and the confirmation dialog
  are not modelled. The dialog's Confirm is the caller of `ResetDataset`. The
  disabled Record, Stop and Share buttons are the preconditions of `Start`,
  `Stop` and `Share`.
- The location and sensor components (`src/components/LocationCard.js`,
  `src/components/SensorCard.js`) are the environment that calls
  `UpdateLocation` and `UpdateSensor`. A denied location permission means
  `UpdateLocation` is never called. An unsupported sensor name means its channel
  is never updated. Subscription clean-up is not modelled. The location
  clean-up is returned from an async function, so it is never registered anyway.
- File reads and writes and JSON text are not modelled; the file is the abstract
  `Storage` value. A stored text that parses to something other than an array
  counts as `Unparsable`, because the push then fails into the same fallback.
- StoreData: a failed rewrite of the extended array is assumed to leave the file
  as it was before the fallback writes the one-element array. A partially written
  file is not modelled.
- StoreData: a failure of the fallback write, and ResetDataset: a failure of its
  write, are not modelled. Both are rejected promises that nothing handles, and
  the file's state after them is unknown.
- Timing and concurrency are not modelled: the 1000 ms period, and the fact that
  a tick does not wait for the previous tick's store to finish, so real appends
  can overlap and lose records. Each tick is one atomic step whose store
  completes before the next tick.
- Tick: the cached location, sensor data and activity are read through
  references that are refreshed after each render. The model reads the fields
  directly, so it assumes those references are current at every tick.
- The device id starts as the empty string and is set from the platform's build
  id after mount. The model takes the final id as a constructor input, and the
  file name derived from it is implicit.
- Sensor values are real numbers treated as opaque. The three-decimal display
  formatting is not modelled.
- Console logging is not modelled. Stop's read-back only reports whether it
  succeeded.
