/**
 * The recording session of one device: the recording flag, the selected activity,
 * the latest-value cache (one location fix and the motion channels), the live
 * sampling timers and the device's dataset file. Handlers overwrite these fields;
 * each clock tick builds one record from them and stores it.
 */
module Session {
  import opened Records
  import opened Cache
  import opened Dataset

  /** The alert a share request ends with. */
  datatype ShareOutcome = Shared | ShareFailed | Unavailable

  class RecordingSession {
    const deviceId: string
    var isRecording: bool
    var activity: Activity
    var location: Option<Coords>
    var sensorData: map<string, Reading>
    /** Sampling timers scheduled and not yet cleared. */
    var liveTimers: nat
    var file: Storage
    /** The records built by ticks since the current recording started. */
    ghost var sessionLog: seq<Record>
    /** The sensor updates delivered so far, in arrival order. */
    ghost var updates: seq<(string, Reading)>
    /** The file as it stood at the last Start or reset, ... */
    ghost var base: Storage
    /** ... the records stored onto it since then, in tick order, ... */
    ghost var stored: seq<Record>
    /** ... and whether every rewrite since then went through. */
    ghost var intact: bool

    /**
     * Exactly one timer runs while recording and none otherwise, and while recording
     * every record built so far carries the device and the activity now selected.
     */
    ghost predicate Valid()
      reads this
    {
      liveTimers == (if isRecording then 1 else 0) &&
      (isRecording ==> forall r :: r in sessionLog ==> r.activity == activity && r.deviceId == deviceId) &&
      sensorData == ApplyUpdates(map[], updates) &&
      (intact ==> file == StoreAll(base, stored))
    }

    /** A session as the screen mounts it, over whatever the device's file holds. */
    constructor (deviceId: string, file: Storage)
      ensures Valid()
      ensures this.deviceId == deviceId && this.file == file
      ensures !isRecording && activity == Walk
      ensures location == None && sensorData == map[]
      ensures sessionLog == [] && updates == []
      ensures base == file && stored == [] && intact
    {
      this.deviceId := deviceId;
      this.file := file;
      isRecording := false;
      activity := Walk;
      location := None;
      sensorData := map[];
      liveTimers := 0;
      sessionLog := [];
      updates := [];
      base, stored, intact := file, [], true;
    }

    /** A new fix from the location producer replaces the cached one. */
    method UpdateLocation(c: Coords)
      requires Valid()
      modifies this`location
      ensures Valid()
      ensures location == Some(c)
    {
      location := Some(c);
    }

    /** A new reading on channel `name` replaces that channel's entry only. */
    method UpdateSensor(name: string, v: Reading)
      requires Valid()
      modifies this`sensorData, this`updates
      ensures Valid()
      ensures updates == old(updates) + [(name, v)]
      ensures sensorData == UpdateChannel(old(sensorData), name, v)
      ensures name in sensorData && sensorData[name] == v
      ensures forall k :: k in old(sensorData) && k != name ==> k in sensorData && sensorData[k] == old(sensorData)[k]
    {
      ApplyUpdatesSnoc(map[], updates, (name, v));
      sensorData := UpdateChannel(sensorData, name, v);
      updates := updates + [(name, v)];
    }

    /**
     * The picker's change handler: while recording the choice is refused and only
     * the "Stop recording first!" advisory is raised; otherwise the choice is taken.
     */
    method SelectActivity(v: Activity) returns (advisory: bool)
      requires Valid()
      modifies this`activity
      ensures Valid()
      ensures advisory == isRecording
      ensures activity == (if isRecording then old(activity) else v)
    {
      if !isRecording {
        activity := v;
        advisory := false;
      } else {
        advisory := true;
      }
    }

    /** Record: enabled only when not recording; sets the flag and schedules one sampling timer. */
    method Start()
      requires Valid() && !isRecording
      modifies this`isRecording, this`liveTimers, this`sessionLog, this`base, this`stored, this`intact
      ensures Valid()
      ensures isRecording && liveTimers == 1
      ensures sessionLog == [] && base == file && stored == [] && intact
    {
      isRecording := true;
      liveTimers := liveTimers + 1;
      sessionLog := [];
      base, stored, intact := file, [], true;
    }

    /**
     * The read-modify-rewrite append: the stored array gets `rec` pushed at its end
     * and is written back; a missing or unparsable file, or a failed rewrite, ends
     * in writing the one-element array instead. Only `Tick` calls it, and `Tick`
     * brings the ghost bookkeeping of `Valid()` up to date afterwards.
     */
    method StoreData(rec: Record, rewriteOk: bool)
      modifies this`file
      ensures file == AfterStore(old(file), rec, rewriteOk)
    {
      match file {
        case Array(existing) =>
          var newData := existing;
          newData := newData + [rec];
          if rewriteOk {
            file := Array(newData);
          } else {
            file := Array([rec]);
          }
        case _ =>
          file := Array([rec]);
      }
    }

    /**
     * One firing of the sampling timer: builds exactly one record from the cache and
     * the session metadata, stamped with `timestamp`, and stores it.
     */
    method Tick(timestamp: string, rewriteOk: bool) returns (rec: Record)
      requires Valid() && liveTimers > 0
      modifies this`file, this`sessionLog, this`stored, this`intact
      ensures Valid()
      ensures rec.location == location && rec.sensorData == sensorData
      ensures rec.activity == activity && rec.deviceId == deviceId && rec.timestamp == timestamp
      ensures file == AfterStore(old(file), rec, rewriteOk)
      ensures sessionLog == old(sessionLog) + [rec]
      ensures stored == old(stored) + [rec] && intact == (old(intact) && rewriteOk)
      ensures forall name :: name in rec.sensorData <==> LatestFor(updates, name).Some?
      ensures forall name :: LatestFor(updates, name).Some? ==> rec.sensorData[name] == LatestFor(updates, name).value
      ensures intact && base.Array? ==> file == Array(base.records + stored)
      ensures intact && !base.Array? && stored != [] ==> file == Array(stored)
    {
      rec := Record(location, sensorData, activity, deviceId, timestamp);
      StoreData(rec, rewriteOk);
      sessionLog := sessionLog + [rec];
      stored := stored + [rec];
      intact := intact && rewriteOk;
      assert stored[..|stored| - 1] == old(stored);
      if intact {
        assert StoreAll(base, stored) == AfterStore(StoreAll(base, old(stored)), rec, true);
        if base.Array? {
          StoreAllAppends(base.records, stored);
        } else {
          StoreAllAfterFailure(base, stored);
        }
      }
      forall name {
        ApplyUpdatesLatest(map[], updates, name);
      }
    }

    /**
     * Stop: enabled only while recording; clears the flag and the timer, then reads
     * the file back for logging. The read fails only when the file is missing, and
     * it leaves the file as it is.
     */
    method Stop() returns (readOk: bool)
      requires Valid() && isRecording
      modifies this`isRecording, this`liveTimers
      ensures Valid()
      ensures !isRecording && liveTimers == 0
      ensures file == old(file)
      ensures readOk == !file.Missing?
    {
      isRecording := false;
      liveTimers := liveTimers - 1;
      readOk := !file.Missing?;
    }

    /** Confirm on the clear dialog: the file becomes the empty array, recording or not. */
    method ResetDataset()
      requires Valid()
      modifies this`file, this`base, this`stored, this`intact
      ensures Valid()
      ensures file == Empty
      ensures base == Empty && stored == [] && intact
    {
      file := Empty;
      base, stored, intact := Empty, [], true;
    }

    /**
     * Share: enabled only when not recording. Hands the file to the platform's share
     * sheet; an unavailable share sheet or a failed share ends in an alert.
     * Neither the session nor the file changes.
     */
    method Share(available: bool, shareOk: bool) returns (outcome: ShareOutcome)
      requires Valid() && !isRecording
      ensures outcome == Shared <==> available && shareOk
      ensures outcome == Unavailable <==> !available
    {
      if available {
        outcome := if shareOk then Shared else ShareFailed;
      } else {
        outcome := Unavailable;
      }
    }
  }

  /**
   * A client of the session: start recording, deliver a location fix and an
   * accelerometer reading, let one tick fire, stop, and clear the dataset.
   */
  method EndToEnd()
  {
    var s := new RecordingSession("dev1", Missing);
    s.Start();
    var fix := Coords(1.0, 2.0, None, None, None, None, None);
    s.UpdateLocation(fix);
    var acc := Reading(0.1, 0.2, 9.8);
    s.UpdateSensor("accelerometer", acc);
    var rec := s.Tick("2024-01-01T00:00:01.000Z", true);
    assert s.file == Array([rec]);
    assert rec.location == Some(fix) && rec.activity == Walk && rec.deviceId == "dev1";
    assert rec.sensorData["accelerometer"] == acc;
    var advisory := s.SelectActivity(Run);
    assert advisory && s.activity == Walk;
    var readOk := s.Stop();
    assert readOk && s.file == Array([rec]);
    s.ResetDataset();
    assert s.file == Array([]);
  }
}
