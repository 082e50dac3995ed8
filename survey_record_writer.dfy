/** `SurveyRecordWriter`: the object that polls the LTE cells, numbers the
    records, shows the serving cell, notifies listeners and, while logging is
    on, queues each record for the GeoPackage log file. The Android
    collaborators are parameters: the cell list of one poll, the visibility of
    the Network Details screen, the storage outcomes of opening a log file,
    and the download directory and timestamp that name it. */
module Writer {
  import opened Wrappers
  import opened JavaInt
  import opened LteRecords
  import opened CellView
  import opened GeoPackage
  import opened LoggingSession
  import opened Listeners
  import opened PollCycle

  const MISSION_ID_PREFIX: string := "Network Survey "

  /** The first poll of a fresh writer with logging on sees one serving cell
      (EARFCN 1300, PCI 55, RSRP -90, all else unknown) and no location fix:
      exactly one record is posted, numbered 0 in group 0; its row holds
      Phys_Cell_Id 55 and, lacking a fix, a point at 0/0/0 rather than no
      geometry. */
  lemma FirstPollExample(ctx: Context, st: PollState, time: int)
    requires ctx.loggingEnabled && ctx.groupNumber == 0
    requires st.recordNumber == 0 && st.pending == []
    ensures var raw := RawLte(INT_MAX, INT_MAX, INT_MAX, INT_MAX, 1300, 55, -90, INT_MAX, INT_MAX);
      var res := Run(ctx, Scan(st, [], false), [CellEntry(true, true, raw, None, false, time)]);
      && |res.state.pending| == 1
      && res.state.pending[0].recordNumber == 0 && res.state.pending[0].groupNumber == 0
      && res.state.recordNumber == 1
      && ColumnValue(BuildRow(res.state.pending[0]), PciCol) == Some(55)
      && ColumnValue(BuildRow(res.state.pending[0]), RecordNumberCol) == Some(0)
      && BuildRow(res.state.pending[0]).geometry.point == Point(0, 0, 0)
  {
    var raw := RawLte(INT_MAX, INT_MAX, INT_MAX, INT_MAX, 1300, 55, -90, INT_MAX, INT_MAX);
    var e := CellEntry(true, true, raw, None, false, time);
    RunSnoc(ctx, Scan(st, [], false), [], e);
    assert [] + [e] == [e];
    var r := Build(ctx, e, 0).value;
    RowRoundTrip(r);
  }

  class SurveyRecordWriter {
    const deviceId: string
    const missionId: string

    var listeners: seq<ListenerId>
    var loggingEnabled: bool
    var geoPackage: Option<Package>
    var recordNumber: int
    var groupNumber: int
    /** The records posted to the handler and not yet run, oldest first. */
    var pending: seq<LteRecord>
    /** The Network Details text views. */
    var screen: Screen
    /** Everything the writer has done outside itself, in order. */
    var effects: seq<Effect>

    function SessionState(): Session
      reads this
    {
      LoggingSession.Session(loggingEnabled, geoPackage)
    }

    /** The invariant of the writer: whatever package it holds has, if any
        feature table, the LTE table in WGS 84, and every row stored there
        has a value of its column's declared type in each column it sets, so
        no insert of the writer's fails on a type mismatch. */
    predicate Valid()
      reads this
    {
      TablesAreLte(SessionState())
    }

    function State(): PollState
      reads this
    {
      PollState(recordNumber, pending, screen, effects)
    }

    function Ctx(detailsVisible: bool): Context
      reads this
    {
      Context(deviceId, missionId, groupNumber, loggingEnabled, listeners, detailsVisible)
    }

    /** The mission id is fixed at construction from the start time;
        `recordNumber` starts at 0 and `groupNumber` at -1, so the first poll
        is group 0. */
    constructor (deviceId: string, startTime: string)
      ensures this.deviceId == deviceId && missionId == MISSION_ID_PREFIX + startTime
      ensures recordNumber == 0 && groupNumber == -1
      ensures !loggingEnabled && geoPackage == None
      ensures listeners == [] && pending == [] && screen == BlankScreen && effects == []
      ensures Valid()
    {
      this.deviceId := deviceId;
      missionId := MISSION_ID_PREFIX + startTime;
      listeners := [];
      loggingEnabled := false;
      geoPackage := None;
      recordNumber := 0;
      groupNumber := -1;
      pending := [];
      screen := BlankScreen;
      effects := [];
    }

    method RegisterSurveyRecordListener(l: ListenerId)
      modifies this`listeners
      ensures listeners == old(listeners) + [l]
    {
      listeners := listeners + [l];
    }

    method UnregisterSurveyRecordListener(l: ListenerId)
      modifies this`listeners
      ensures listeners == RemoveFirst(old(listeners), l)
      ensures multiset(listeners) == multiset(old(listeners)) - multiset{l}
    {
      RemoveFirstMultiset(listeners, l);
      listeners := RemoveFirst(listeners, l);
    }

    /** `generateLteSurveyRecord`: validates, looks up the location, then
        builds the record with the next record number. `thrown` is the
        exception of the location lookup, which comes after `validate` and
        before the number is taken; the number is consumed only by a record
        that is built. */
    method GenerateLteSurveyRecord(e: CellEntry) returns (r: Option<LteRecord>, thrown: bool)
      modifies this`recordNumber
      ensures var built := BuildRecord(e.raw, e.fix, e.time, deviceId, missionId, old(recordNumber), groupNumber);
        && (thrown <==> built.Some? && e.lookupThrows)
        && r == (if thrown then None else built)
      ensures recordNumber == old(recordNumber) + (if r.Some? then 1 else 0)
    {
      var raw := e.raw;
      thrown := false;
      if !Validate(raw.earfcn, raw.pci, raw.rsrp) {
        return None, false;
      }
      if e.lookupThrows {
        return None, true;
      }
      var loc := Location(0, 0, 0);
      if e.fix.Some? {
        loc := e.fix.value;
      }
      var number := recordNumber;
      recordNumber := recordNumber + 1;
      r := Some(LteRecord(deviceId, e.time, missionId, number, groupNumber,
                          loc.latitude, loc.longitude, loc.altitude, FieldsOf(raw)));
    }

    /** `writeSurveyRecordEntryToLogFile`: posts the write only while logging
        is on. */
    method WriteSurveyRecordEntryToLogFile(r: LteRecord)
      modifies this`pending, this`effects
      ensures loggingEnabled ==> pending == old(pending) + [r] && effects == old(effects) + [Posted(r)]
      ensures !loggingEnabled ==> pending == old(pending) && effects == old(effects)
    {
      if !loggingEnabled {
        return;
      }
      pending := pending + [r];
      effects := effects + [Posted(r)];
    }

    /** `updateUi`, skipped when the screen is not visible. */
    method UpdateUi(r: LteRecord, detailsVisible: bool)
      modifies this`screen, this`effects
      ensures State() == Show(Ctx(detailsVisible), old(State()), r)
    {
      if !detailsVisible {
        return;
      }
      screen := Render(screen, r);
      effects := effects + [Displayed(r)];
    }

    /** The `forEach` over the listeners. */
    method NotifyListeners(r: LteRecord)
      modifies this`effects
      ensures effects == old(effects) + Notifications(listeners, r)
    {
      var i := 0;
      while i < |listeners|
        invariant 0 <= i <= |listeners|
        invariant effects == old(effects) + Notifications(listeners[..i], r)
      {
        assert Notifications(listeners[..i + 1], r) == Notifications(listeners[..i], r) + [Notified(listeners[i], r)];
        effects := effects + [Notified(listeners[i], r)];
        i := i + 1;
      }
      assert listeners[..i] == listeners;
    }

    /** `parseServingCellInfo`: false when the serving reading is invalid;
        `thrown` when the location lookup throws; otherwise the record is
        written, shown and broadcast, in that order. */
    method ParseServingCellInfo(e: CellEntry, detailsVisible: bool) returns (valid: bool, thrown: bool)
      modifies this`recordNumber, this`pending, this`screen, this`effects
      ensures var sc := Step(Ctx(detailsVisible), Scan(old(State()), [], false), e.(isLte := true, isRegistered := true));
        valid == !sc.stopped && State() == sc.state
      ensures thrown <==> Validate(e.raw.earfcn, e.raw.pci, e.raw.rsrp) && e.lookupThrows
    {
      var r;
      r, thrown := GenerateLteSurveyRecord(e);
      if r.None? {
        return false, thrown;
      }
      WriteSurveyRecordEntryToLogFile(r.value);
      UpdateUi(r.value, detailsVisible);
      NotifyListeners(r.value);
      return true, false;
    }

    /** `parseNeighborCellInfo`: a record is built, and a number consumed,
        only while logging is on; only then can the location lookup throw. */
    method ParseNeighborCellInfo(e: CellEntry) returns (thrown: bool)
      modifies this`recordNumber, this`pending, this`effects
      ensures forall v: bool :: State() == Step(Ctx(v), Scan(old(State()), [], false), e.(isLte := true, isRegistered := false)).state
      ensures thrown <==> loggingEnabled && Validate(e.raw.earfcn, e.raw.pci, e.raw.rsrp) && e.lookupThrows
    {
      thrown := false;
      if loggingEnabled {
        var r;
        r, thrown := GenerateLteSurveyRecord(e);
        if r.Some? {
          WriteSurveyRecordEntryToLogFile(r.value);
        }
      }
    }

    /** The body of the loop in `logSurveyRecord` for one entry: `stop` when
        the loop ends here, by the `break` after an invalid serving record
        or by a location-lookup exception leaving it for the catch. */
    method ProcessCell(e: CellEntry, detailsVisible: bool) returns (stop: bool)
      modifies this`recordNumber, this`pending, this`screen, this`effects
      ensures var sc := Step(Ctx(detailsVisible), Scan(old(State()), [], false), e);
        stop == sc.stopped && State() == sc.state
    {
      stop := false;
      if e.isLte {
        if e.isRegistered {
          var valid, thrown := ParseServingCellInfo(e, detailsVisible);
          stop := !valid;
        } else {
          stop := ParseNeighborCellInfo(e);
        }
      }
    }

    /** `logSurveyRecord`: one poll. `cells` is `None` when the cell list could
        not be obtained (the exception is caught and the poll yields nothing). */
    method LogSurveyRecord(cells: Option<seq<CellEntry>>, detailsVisible: bool)
      modifies this`groupNumber, this`recordNumber, this`pending, this`screen, this`effects
      ensures groupNumber == old(groupNumber) + 1
      ensures cells.None? ==> State() == old(State())
      ensures cells.Some? ==>
        State() == Run(Ctx(detailsVisible), Scan(old(State()), [], false), cells.value).state
    {
      groupNumber := groupNumber + 1;
      if cells.None? {
        return;
      }
      var all := cells.value;
      ghost var ctx := Ctx(detailsVisible);
      ghost var start := Scan(State(), [], false);
      if |all| > 0 {
        var i := 0;
        while i < |all|
          invariant 0 <= i <= |all|
          invariant ctx == Ctx(detailsVisible)
          invariant !Run(ctx, start, all[..i]).stopped && State() == Run(ctx, start, all[..i]).state
        {
          var e := all[i];
          ghost var before := Run(ctx, start, all[..i]);
          RunSnoc(ctx, start, all[..i], e);
          assert all[..i] + [e] == all[..i + 1];
          StepFrom(ctx, before, e);
          var stop := ProcessCell(e, detailsVisible);
          if stop {
            RunAfterStop(ctx, start, all[..i + 1], all[i + 1..]);
            assert all[..i + 1] + all[i + 1..] == all;
            break;
          }
          i := i + 1;
        }
        if i == |all| {
          assert all[..i] == all;
        }
      }
    }

    /** `enableLogging`, with `createPublicStorageFilePath` built from the
        download directory and the current timestamp. */
    method EnableLogging(enable: bool, env: Storage, downloadsDir: string, timestamp: string)
      returns (fault: Option<Fault>)
      requires Valid()
      modifies this`loggingEnabled, this`geoPackage
      ensures Valid()
      ensures Transition(SessionState(), fault) ==
        EnableTransition(old(SessionState()), enable, env, StoragePath(downloadsDir, timestamp))
    {
      EnablePreservesTables(SessionState(), enable, env, StoragePath(downloadsDir, timestamp));
      fault := None;
      if !enable {
        if loggingEnabled {
          loggingEnabled := false;
          if geoPackage.None? {
            return Some(NullPackage);
          }
          geoPackage := None;
        }
        return;
      }
      if env.writable {
        var loggingFile := StoragePath(downloadsDir, timestamp);
        if !env.createOk {
          return;
        }
        if !env.openOk {
          geoPackage := None;
          return;
        }
        geoPackage := Some(Package(loggingFile, None));
        if !env.setupOk {
          return Some(SetupFailed);
        }
        var table := CreateLteRecordTable(WGS84_SRS);
        geoPackage := Some(Package(loggingFile, Some(table)));
      }
      loggingEnabled := true;
    }

    /** The handler runs the oldest posted write: its row is inserted into the
        package open now, if any. */
    method RunPostedWrite()
      requires pending != [] && Valid()
      modifies this`pending, this`geoPackage
      ensures Valid()
      ensures pending == old(pending)[1..]
      ensures geoPackage == AppendRow(old(geoPackage), BuildRow(old(pending)[0]))
    {
      var row := BuildRow(pending[0]);
      BuildRowFitsSchema(pending[0]);
      geoPackage := AppendRow(geoPackage, row);
      pending := pending[1..];
    }

    /** The handler runs every posted write, oldest first. */
    method DrainPending()
      requires Valid()
      modifies this`pending, this`geoPackage
      ensures Valid()
      ensures pending == []
      ensures geoPackage == AppendRows(old(geoPackage), Rows(old(pending)))
    {
      while pending != []
        invariant Valid()
        invariant AppendRows(geoPackage, Rows(pending)) == AppendRows(old(geoPackage), Rows(old(pending)))
        decreases |pending|
      {
        RowsCons(pending);
        RunPostedWrite();
      }
    }
  }
}
