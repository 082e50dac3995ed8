# LTE survey-record writer

A Dafny model of the LTE survey-record pipeline of Network Survey's
`SurveyRecordWriter`. Each poll walks the list of cells the telephony layer
reports. Every LTE reading is turned into an `LteRecord`; the sentinel
`Integer.MAX_VALUE` becomes an absent field, and a reading without EARFCN, PCI
or RSRP yields no record. Records are numbered with a per-writer record number
and a per-poll group number. A valid serving-cell record is posted for writing,
shown on the Network Details screen and broadcast to listeners. While logging
is on, neighbour records are posted too. Posted writes go through a FIFO
handler queue into the LTE feature table of a GeoPackage file. That file
follows the OGC GeoPackage Encoding Standard: a feature user table (section
2.1.6) with a POINT geometry column (section 2.1.5) in WGS 84 / EPSG:4326.

Modules, leaves first:

- `Wrappers`: `Option`.
- `JavaInt`: Java `int` arithmetic. It models the `(short)` cast, truncating
  `/` and `%`, `>>`, and `& 0xFF`.
- `LteRecords`: raw readings, the record, `Validate` and `BuildRecord`.
- `CellView`: the integer content of `updateUi`. This includes the ECI split
  into eNodeB id and sector (section 9.2.1.38 of 3GPP TS 36.413). It also
  includes the PCI split into N_ID(2) = PCI mod 3 and N_ID(1) = PCI div 3
  (section 6.11 of 3GPP TS 36.211).
- `GeoPackage`: the table schema, row building, insertion and the log-file
  path.
- `LoggingSession`: the `enableLogging` state machine as a function.
- `Listeners`: the listener list.
- `PollCycle`: one poll, stated as a fold over the cell list, and its
  properties.
- `Writer`: the class `SurveyRecordWriter`. Its methods change its fields and
  are proved against the functions above.

The Android collaborators are parameters:

- the cell list of a poll (`None` when obtaining it throws);
- for each entry, the location fix and device time sampled for it, and
  whether the location lookup throws for it;
- whether the Network Details screen is visible;
- whether storage is writable, and whether create, open and table setup
  succeed;
- the download directory and the timestamp that name the log file.

Behaviour of the code worth knowing, which the model keeps:

- `recordNumber` and `groupNumber` are never reset. Enabling logging again
  continues both counters.
- A record without a location fix still gets a point geometry, at
  latitude 0, longitude 0, altitude 0. The geometry is never absent.
- The LTE table has 14 columns. `RecordNumber` is at position 3 and
  `GroupNumber` at 4, and there is no `MissionId` column. The instrumentation
  test `TestBase.java` (lines 85-94) still expects `MissionId` at position 3
  and `RecordNumber` at 4.
- `getLastKnownLocation` can throw. It throws a `SecurityException` without
  the location permission, and an `IllegalArgumentException` when no provider
  is enabled and the best provider is null. The throw comes after `validate`
  and before the record number is taken. The catch at the end of
  `logSurveyRecord` then ends the poll, so later entries are skipped.
- Enabling with unwritable storage still sets the logging flag and leaves
  `geoPackage` as it was. No package is opened.
- A failed open drops any package that was open before, without closing it.
- A failed table setup leaves the new package referenced and lets the
  `SQLException` escape.
- Enabling while already enabled replaces the package without closing it.
- Disabling does not flush the queue. A write still queued when it runs
  finds no package and is dropped.
- Disabling while the flag is on but no package is open clears the flag and
  then throws a `NullPointerException` from `geoPackage.close()`.
  `EnableLogging` returns this as `Some(NullPackage)`.

## Model

| member | source | states |
|---|---|---|
| `JavaInt.Narrow16` | networksurvey/src/main/java/com/craxiom/networksurvey/SurveyRecordWriter.java:541-544 | `(short) v` is in [-32768, 32767] and congruent to `v` mod 65536. It leaves `v` unchanged when `v` is already in that range. |
| `JavaInt.JavaDivRem3` | networksurvey/src/main/java/com/craxiom/networksurvey/SurveyRecordWriter.java:429-430 | Java's truncating `pci / 3` and `pci % 3` satisfy `pci == 3*(pci/3) + pci%3`. The remainder lies strictly between -3 and 3. It is in {0,1,2} with a non-negative quotient when `pci >= 0`, and at most 0 when `pci < 0`. |
| `JavaInt.ShiftMaskSplit` | networksurvey/src/main/java/com/craxiom/networksurvey/SurveyRecordWriter.java:415-421 | For any integer and any bit count n, the arithmetic right shift by n and the low-n-bit mask recombine to the value, and the mask lies in [0, 2^n). |
| `JavaInt.ShiftMask8` | networksurvey/src/main/java/com/craxiom/networksurvey/SurveyRecordWriter.java:417-420 | `ci >> 8` is the floor quotient and `ci & 0xFF` the Euclidean remainder of `ci` by 256, so the sector is always in [0,255]. |
| `LteRecords.Known` | networksurvey/src/main/java/com/craxiom/networksurvey/SurveyRecordWriter.java:357-365 | A raw value becomes absent exactly when it is `Integer.MAX_VALUE`; otherwise it is kept unchanged. |
| `LteRecords.FieldsOf` | networksurvey/src/main/java/com/craxiom/networksurvey/SurveyRecordWriter.java:357-365 | The nine optional fields of the record, each read from its raw value by `Known`. `RawRoundTrip` proves it loses nothing. |
| `LteRecords.RawRoundTrip` | networksurvey/src/main/java/com/craxiom/networksurvey/SurveyRecordWriter.java:357-365 | Mapping absence back to the sentinel recovers the raw reading, so folding the sentinel into absence loses nothing. |
| `LteRecords.Validate` | networksurvey/src/main/java/com/craxiom/networksurvey/SurveyRecordWriter.java:375-396 | A reading is valid exactly when EARFCN, PCI and RSRP are all not `Integer.MAX_VALUE`. |
| `LteRecords.BuildRecord` | networksurvey/src/main/java/com/craxiom/networksurvey/SurveyRecordWriter.java:320-368 | A record exists iff EARFCN, PCI and RSRP are known. Its nine radio fields are the sentinel-to-absence mapping of the raw values, with the three required ones present. It carries the given record and group numbers, device id, mission id and time. Its position is the fix, or 0/0/0 without one. |
| `CellView.SplitEci` | networksurvey/src/main/java/com/craxiom/networksurvey/SurveyRecordWriter.java:410-422 | The sector is in [0,255] and `ci == eNodeBId*256 + sector`. A non-negative ECI gives a non-negative eNodeB id. A 28-bit ECI gives a 20-bit eNodeB id. |
| `CellView.SplitPci` | networksurvey/src/main/java/com/craxiom/networksurvey/SurveyRecordWriter.java:426-432 | `pci == 3*N_ID(1) + N_ID(2)`. For `pci >= 0`, N_ID(2) is in {0,1,2}. For PCI in 0..503, N_ID(1) is at most 167. |
| `CellView.Render` | networksurvey/src/main/java/com/craxiom/networksurvey/SurveyRecordWriter.java:406-438 | After a refresh, MCC, MNC, TAC, EARFCN, RSRP, RSRQ and TA show the record's value or blank. When the record has an ECI, the ECI view is exactly its split into eNodeB id and sector. When it has a PCI, the PCI view is exactly its split into `pci % 3` and `pci / 3`. Each of these two views is left as it was when the field is absent. |
| `CellView.RenderConsistent` | networksurvey/src/main/java/com/craxiom/networksurvey/SurveyRecordWriter.java:410-432 | Every ECI and PCI view the screen shows is the split of the value it shows, before and after an update. |
| `GeoPackage.LteSchema` | networksurvey/src/main/java/com/craxiom/networksurvey/SurveyRecordWriter.java:237-254 | The fourteen columns as `createLteRecordTable` declares them. Their order, keys, nullability and positions are proved in the four `LteSchema…` lemmas. |
| `GeoPackage.LteSchemaOrder` | networksurvey/src/main/java/com/craxiom/networksurvey/SurveyRecordWriter.java:237-256 | The LTE table has 14 columns at positions 0..13. In order they are `id, geom, Time, RecordNumber, GroupNumber, MCC, MNC, TAC, ECI, DL_EARFCN, Phys_Cell_Id, RSRP, RSRQ, TA`. |
| `GeoPackage.LteSchemaKeys` | networksurvey/src/main/java/com/craxiom/networksurvey/SurveyRecordWriter.java:239-240 | Only column 0 is the primary key. Column 1, `geom`, is the only geometry column, and it is a POINT. |
| `GeoPackage.LteSchemaNullability` | networksurvey/src/main/java/com/craxiom/networksurvey/SurveyRecordWriter.java:240-254 | Apart from the key, only RecordNumber and GroupNumber are not-null. They are the only columns with a default, which is -1. |
| `GeoPackage.LteSchemaPositions` | networksurvey/src/main/java/com/craxiom/networksurvey/SurveyRecordWriter.java:241-254 | Each column a row may set is a non-key data column at its fixed position, under its name. |
| `GeoPackage.CreateLteRecordTable` | networksurvey/src/main/java/com/craxiom/networksurvey/SurveyRecordWriter.java:226-257 | Adding the columns with a running column number yields the table `lte_drive_test_records` with exactly the LTE schema, in the given spatial reference, with no rows. |
| `GeoPackage.ShortOf` | networksurvey/src/main/java/com/craxiom/networksurvey/SurveyRecordWriter.java:541-544 | `setShortValue`: the value stored as a Java `short`, that is `Narrow16`. |
| `GeoPackage.IntOf` | networksurvey/src/main/java/com/craxiom/networksurvey/SurveyRecordWriter.java:529-532 | `setIntValue`: the value stored unchanged as an `int`. |
| `GeoPackage.FloatOf` | networksurvey/src/main/java/com/craxiom/networksurvey/SurveyRecordWriter.java:553-556 | `setFloatValue`: the value stored as a `float`, kept as the integer it came from. |
| `GeoPackage.StoredValue` | networksurvey/src/main/java/com/craxiom/networksurvey/SurveyRecordWriter.java:498-510 | The setter the write uses for each column. `StoredValueFits` proves each setter's type matches its column's declared type. |
| `GeoPackage.BuildRow` | networksurvey/src/main/java/com/craxiom/networksurvey/SurveyRecordWriter.java:491-510 | The row a posted write builds: the point (longitude, latitude, altitude) in SRS 4326, and a value for each field the record has. `RowRoundTrip` proves it against the independent reading `ReadBack`. |
| `GeoPackage.RowRoundTrip` | networksurvey/src/main/java/com/craxiom/networksurvey/SurveyRecordWriter.java:491-510 | Reading back a written row gives each optional field present exactly when the record had it. MCC, MNC, PCI and TA come back 16-bit narrowed; TAC, ECI, EARFCN, RSRP and RSRQ come back unchanged. Time, RecordNumber and GroupNumber are the record's. The geometry is the point x = longitude, y = latitude, z = altitude in SRS 4326. |
| `GeoPackage.ExactRoundTrip` | networksurvey/src/main/java/com/craxiom/networksurvey/SurveyRecordWriter.java:502-510 | When MCC, MNC, PCI and TA fit in 16 bits, the optional fields read back equal the record's exactly. |
| `GeoPackage.StoredValueFits` | networksurvey/src/main/java/com/craxiom/networksurvey/SurveyRecordWriter.java:498-510 | Each setter stores the Java type its column declares: long for INT, int for MEDIUMINT, an in-range short for SMALLINT, float for FLOAT. |
| `GeoPackage.BuildRowFitsSchema` | networksurvey/src/main/java/com/craxiom/networksurvey/SurveyRecordWriter.java:498-510 | Every value of a built row lies in a non-key data column of the LTE schema whose type matches it. The not-null RecordNumber and GroupNumber are always set. |
| `GeoPackage.AppendRow` | networksurvey/src/main/java/com/craxiom/networksurvey/SurveyRecordWriter.java:486-517 | One insert appends exactly one row and changes nothing else, but only when a package with its feature table is open. Otherwise nothing changes. |
| `GeoPackage.AppendRowsToTable` | networksurvey/src/main/java/com/craxiom/networksurvey/SurveyRecordWriter.java:486-512 | Inserting a sequence of rows into an open table appends all of them, in order, and changes nothing else. |
| `GeoPackage.AppendRowsWithoutTable` | networksurvey/src/main/java/com/craxiom/networksurvey/SurveyRecordWriter.java:486-517 | With no package open, or one whose setup failed, any number of inserts change nothing. |
| `GeoPackage.StoragePath` | networksurvey/src/main/java/com/craxiom/networksurvey/SurveyRecordWriter.java:586-591 | The log path starts with the download directory and ends in `.gpkg`. It is 36 characters longer than the directory and timestamp together. |
| `GeoPackage.StoragePathInjective` | networksurvey/src/main/java/com/craxiom/networksurvey/SurveyRecordWriter.java:586-591 | Two different timestamps never give the same log path in one directory. |
| `LoggingSession.EnableTransition` | networksurvey/src/main/java/com/craxiom/networksurvey/SurveyRecordWriter.java:167-217 | `enableLogging` as a function of the session, the storage outcomes and the path. Its disable and enable outcomes are proved in the four lemmas below. |
| `LoggingSession.DisableWhenOffIsNoOp` | networksurvey/src/main/java/com/craxiom/networksurvey/SurveyRecordWriter.java:169-179 | `enableLogging(false)` while logging is off changes nothing and throws nothing. |
| `LoggingSession.DisableWhenOn` | networksurvey/src/main/java/com/craxiom/networksurvey/SurveyRecordWriter.java:169-179 | `enableLogging(false)` while logging is on clears the flag and drops the package. It throws exactly when no package was open. |
| `LoggingSession.EnableOutcomes` | networksurvey/src/main/java/com/craxiom/networksurvey/SurveyRecordWriter.java:181-216 | With unwritable storage, only the flag is set. A failed create changes nothing. A failed open leaves the flag as it was and no package. A failed setup leaves the flag as it was and throws. The flag ends true iff it was true, storage was unwritable, or every step succeeded. |
| `LoggingSession.EnablePreservesTables` | networksurvey/src/main/java/com/craxiom/networksurvey/SurveyRecordWriter.java:191-216 | A package's feature table is always the LTE table in SRS 4326, and every row stored in it fits the schema's column types. A fully successful enable opens the new path with that table, empty. |
| `Listeners.RemoveFirst` | networksurvey/src/main/java/com/craxiom/networksurvey/SurveyRecordWriter.java:116-119 | `remove` leaves the list unchanged when the listener is absent. Otherwise it removes exactly its first occurrence and keeps what is before and after it. |
| `Listeners.RemoveFirstMultiset` | networksurvey/src/main/java/com/craxiom/networksurvey/SurveyRecordWriter.java:116-119 | Removal takes out one copy of the listener, if any, and every other listener stays registered as often as before. |
| `Listeners.RemoveAfterAppend` | networksurvey/src/main/java/com/craxiom/networksurvey/SurveyRecordWriter.java:111-119 | Unregistering a listener that was just registered, and was not registered before, restores the previous list. |
| `Listeners.RemoveKeepsOrder` | networksurvey/src/main/java/com/craxiom/networksurvey/SurveyRecordWriter.java:116-119 | Without `x` the list is unchanged. With `x`, the result is one shorter, and position i holds what `s` held at i before the first `x` and at i + 1 after it. So the remaining listeners keep their registration order exactly, duplicates included. |
| `PollCycle.Notifications` | networksurvey/src/main/java/com/craxiom/networksurvey/SurveyRecordWriter.java:290 | The broadcast calls every listener exactly once, in registration order. |
| `PollCycle.Write` | networksurvey/src/main/java/com/craxiom/networksurvey/SurveyRecordWriter.java:472-480 | A post to the queue, and a `Posted` effect, only while logging is on. |
| `PollCycle.Show` | networksurvey/src/main/java/com/craxiom/networksurvey/SurveyRecordWriter.java:398-404 | A re-render of the screen, and a `Displayed` effect, only while the screen is visible. |
| `PollCycle.Serve` | networksurvey/src/main/java/com/craxiom/networksurvey/SurveyRecordWriter.java:288-290 | The tail of `parseServingCellInfo`: write, then show, then broadcast. `ServeEffects` proves the order. |
| `PollCycle.Step` | networksurvey/src/main/java/com/craxiom/networksurvey/SurveyRecordWriter.java:134-153 | One pass of the loop body, including the `break` and the location-lookup exception. A stopped scan is unchanged. At most one record is added and earlier ones are kept. The record number advances exactly when a record is built. |
| `PollCycle.Run` | networksurvey/src/main/java/com/craxiom/networksurvey/SurveyRecordWriter.java:131-153 | The whole loop as a fold over the cell list. Records are only ever appended, and the record number advances by exactly the number of records built. |
| `PollCycle.ServeEffects` | networksurvey/src/main/java/com/craxiom/networksurvey/SurveyRecordWriter.java:280-292 | A valid serving record is posted (if logging is on), then shown (if visible), then broadcast to all listeners in order. Only the post touches the queue. |
| `PollCycle.StepServing` | networksurvey/src/main/java/com/craxiom/networksurvey/SurveyRecordWriter.java:280-292 | A valid serving entry whose location lookup does not throw builds its record with the next number, and the loop goes on. Its effects are the post (if logging is on), then the display (if visible), then one callback per listener in order. |
| `PollCycle.RunAfterStop` | networksurvey/src/main/java/com/craxiom/networksurvey/SurveyRecordWriter.java:142-146 | Once the loop has broken, no further entry has any effect. |
| `PollCycle.InvalidServingStops` | networksurvey/src/main/java/com/craxiom/networksurvey/SurveyRecordWriter.java:134-153 | A serving LTE entry missing EARFCN, PCI or RSRP ends the poll. The entries before it keep their effects; it and every later entry have none. |
| `PollCycle.LookupFaultStops` | networksurvey/src/main/java/com/craxiom/networksurvey/SurveyRecordWriter.java:336-355 | A throwing location lookup for an entry that would build a record ends the poll. That is a valid serving entry, or a valid neighbour while logging is on. It builds nothing and takes no number, the earlier entries keep their effects, and later entries have none. |
| `PollCycle.NonLteIgnored` | networksurvey/src/main/java/com/craxiom/networksurvey/SurveyRecordWriter.java:136-137 | A poll over the whole list equals the poll over its LTE entries alone. |
| `PollCycle.NeighboursIgnoredWhenOff` | networksurvey/src/main/java/com/craxiom/networksurvey/SurveyRecordWriter.java:299-311 | While logging is off, a poll equals the poll over its serving entries alone. Neighbours build nothing and consume no record numbers. |
| `PollCycle.RunNumbering` | networksurvey/src/main/java/com/craxiom/networksurvey/SurveyRecordWriter.java:354-355 | The records built in one poll carry consecutive record numbers from the counter's value. All carry the poll's group number, and the counter ends just past the last one. |
| `PollCycle.StepPosting` | networksurvey/src/main/java/com/craxiom/networksurvey/SurveyRecordWriter.java:472-480 | One pass of the loop posts the record it builds while logging is on, and nothing while it is off. |
| `PollCycle.RunPosting` | networksurvey/src/main/java/com/craxiom/networksurvey/SurveyRecordWriter.java:288-309 | While logging is on, every record built in a poll is posted, in order. While it is off, nothing is posted. |
| `Writer.FirstPollExample` | networksurvey/src/main/java/com/craxiom/networksurvey/SurveyRecordWriter.java:125-159 | The first poll, with logging on, over one serving reading (EARFCN 1300, PCI 55, RSRP -90) and no fix, posts one record. It has number 0 and group 0, and the counter moves to 1. Its row has Phys_Cell_Id 55, RecordNumber 0 and a point at 0/0/0. |
| `Writer.SurveyRecordWriter.constructor` | networksurvey/src/main/java/com/craxiom/networksurvey/SurveyRecordWriter.java:94-109 | The mission id is "Network Survey " followed by the start time. `recordNumber` starts at 0 and `groupNumber` at -1, logging is off, and there are no listeners. The writer's invariant `Valid()` holds: any feature table it holds is the LTE table in WGS 84, and every stored row fits its columns' declared types. |
| `Writer.SurveyRecordWriter.RegisterSurveyRecordListener` | networksurvey/src/main/java/com/craxiom/networksurvey/SurveyRecordWriter.java:111-114 | Registration appends the listener. |
| `Writer.SurveyRecordWriter.UnregisterSurveyRecordListener` | networksurvey/src/main/java/com/craxiom/networksurvey/SurveyRecordWriter.java:116-119 | Unregistration removes the first occurrence, and only one copy. |
| `Writer.SurveyRecordWriter.GenerateLteSurveyRecord` | networksurvey/src/main/java/com/craxiom/networksurvey/SurveyRecordWriter.java:320-368 | The method returns `BuildRecord` at the current record number and group number, unless the location lookup throws. It throws only for a valid reading, and then returns no record and takes no number. The record number is post-incremented exactly when a record is built. |
| `Writer.SurveyRecordWriter.WriteSurveyRecordEntryToLogFile` | networksurvey/src/main/java/com/craxiom/networksurvey/SurveyRecordWriter.java:472-480 | A write is posted to the handler queue only while logging is on. Otherwise nothing changes. |
| `Writer.SurveyRecordWriter.UpdateUi` | networksurvey/src/main/java/com/craxiom/networksurvey/SurveyRecordWriter.java:398-439 | The screen is re-rendered from the record only when it is visible. |
| `Writer.SurveyRecordWriter.NotifyListeners` | networksurvey/src/main/java/com/craxiom/networksurvey/SurveyRecordWriter.java:290 | The loop calls each registered listener once, in order. |
| `Writer.SurveyRecordWriter.ParseServingCellInfo` | networksurvey/src/main/java/com/craxiom/networksurvey/SurveyRecordWriter.java:280-292 | The method returns false exactly when the poll must stop there: the reading is invalid, or the location lookup throws. `thrown` holds exactly when the reading is valid and the lookup throws. Its effects are one step of the poll for a serving entry. |
| `Writer.SurveyRecordWriter.ParseNeighborCellInfo` | networksurvey/src/main/java/com/craxiom/networksurvey/SurveyRecordWriter.java:299-311 | Its effects are one step of the poll for a neighbour entry: a record, and a number, only while logging is on. The location lookup can throw only then, and only for a valid reading. |
| `Writer.SurveyRecordWriter.ProcessCell` | networksurvey/src/main/java/com/craxiom/networksurvey/SurveyRecordWriter.java:134-153 | One pass of the loop body. It returns `stop` exactly when the poll must end at this entry, and its effects are one `Step` of the poll. |
| `Writer.SurveyRecordWriter.LogSurveyRecord` | networksurvey/src/main/java/com/craxiom/networksurvey/SurveyRecordWriter.java:125-159 | `groupNumber` rises by exactly 1 on every call, even when the cell list cannot be read. The new state is the fold of the poll over the cell list, with the early break. |
| `Writer.SurveyRecordWriter.EnableLogging` | networksurvey/src/main/java/com/craxiom/networksurvey/SurveyRecordWriter.java:167-217 | The new flag, package and escaping exception are those of `EnableTransition` for the path `createPublicStorageFilePath` builds. The writer's invariant `Valid()` is kept: any feature table it holds is the LTE table in WGS 84, and every stored row fits its columns' declared types. |
| `Writer.SurveyRecordWriter.RunPostedWrite` | networksurvey/src/main/java/com/craxiom/networksurvey/SurveyRecordWriter.java:480-519 | The handler runs the oldest queued write: its row is inserted into whatever package is open at that moment. `Valid()` is kept, so the inserted row fits the table's column types. |
| `Writer.SurveyRecordWriter.DrainPending` | networksurvey/src/main/java/com/craxiom/networksurvey/SurveyRecordWriter.java:480-519 | Running the whole queue inserts the queued records' rows in posting order and empties the queue. `Valid()` is kept, so every inserted row fits the table's column types. |

## Left out

- Android services are inputs, not modelled: `TelephonyManager.getAllCellInfo`, `LocationManager.getLastKnownLocation`, `Environment` and `isNetworkDetailsVisible`.
- Toasts, log output and `Handler` timing are not modelled. The handler is the FIFO `pending` queue, run by `RunPostedWrite`/`DrainPending`.
- Floating point is not modelled. Latitude, longitude and altitude are opaque values (`Coord`). The `(float)` casts of altitude, RSRP and RSRQ keep the value; the `float` is exact for RSRP/RSRQ magnitudes below 2^24. The `lat == 0 && lon == 0` test that blanks the location views is not modelled.
- Date formatting is not modelled. The mission id and log file name take the formatted time as an opaque string, so the `YYYY` week-year pattern is not captured.
- Display strings of `updateUi` are not modelled, only the integer values the views show.
- `getPrivateStorageFile` and `getPublicStorageDir` are not modelled; the source never calls them.
- GeoPackage internals are not modelled: the spatial reference lookup, the geometry-columns catalog, the Contents and GeometryColumns records, SQL, and the row ids SQLite assigns. A table setup that throws leaves a package without a usable feature table.
- A failing `featureDao.insert` is not modelled; an insert into an open table always succeeds.
- Concurrency is not modelled: `volatile` and the snapshot iteration of `CopyOnWriteArrayList`. Everything runs on one looper thread, and listeners do not register or unregister during a callback.
- Exceptions from listeners and from the UI are not modelled. In the source, a throwing listener aborts the rest of the poll through the catch in `logSurveyRecord`; in the model, listener callbacks never throw.
- `geoPackage.close()` has no modelled effect on the file; closing only drops the reference.
- `LogSurveyRecord`: `groupNumber` is an unbounded integer. Java's `int` would wrap after 2^31 - 1 polls.
- `GenerateLteSurveyRecord`: `recordNumber` is an unbounded integer. Java's `int` would wrap after 2^31 - 1 records.
- `NetworkDetailsActivity` (menu toggle, polling loop) and the instrumentation tests are not part of this model.
