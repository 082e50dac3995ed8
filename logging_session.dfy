/** `enableLogging`: how the logging flag and the open GeoPackage change with
    the outcome of each step of opening a log file. */
module LoggingSession {
  import opened Wrappers
  import opened GeoPackage

  /** The writer's `loggingEnabled` flag and its `geoPackage` reference. */
  datatype Session = Session(loggingEnabled: bool, geoPackage: Option<Package>)

  /** What the platform answers during one `enableLogging(true)`: whether
      external storage is mounted writable, whether `create` and `open`
      succeed, and whether the spatial-reference, geometry-columns and
      feature-table setup runs without an `SQLException`. */
  datatype Storage = Storage(writable: bool, createOk: bool, openOk: bool, setupOk: bool)

  /** An exception `enableLogging` lets escape: the `SQLException` of the
      table setup, or the `NullPointerException` of closing a package that was
      never opened. */
  datatype Fault = SetupFailed | NullPackage

  datatype Transition = Transition(session: Session, fault: Option<Fault>)

  /** The feature table a successful setup leaves in a new file. */
  function NewLteTable(): FeatureTable {
    FeatureTable(LTE_RECORDS_TABLE_NAME, LteSchema(), WGS84_SRS, [])
  }

  /** `enableLogging(enable)` from session `s`, where `path` is the file name
      `createPublicStorageFilePath` gives at that moment. */
  function EnableTransition(s: Session, enable: bool, env: Storage, path: string): Transition {
    if !enable then
      if !s.loggingEnabled then Transition(s, None)
      // the flag is cleared before `geoPackage.close()` is called
      else if s.geoPackage.None? then Transition(Session(false, None), Some(NullPackage))
      else Transition(Session(false, None), None)
    else if !env.writable then Transition(s.(loggingEnabled := true), None)
    else if !env.createOk then Transition(s, None)
    else if !env.openOk then Transition(s.(geoPackage := None), None)
    else if !env.setupOk then Transition(s.(geoPackage := Some(Package(path, None))), Some(SetupFailed))
    else Transition(Session(true, Some(Package(path, Some(NewLteTable())))), None)
  }

  /** Disabling when logging is off changes nothing and throws nothing. */
  lemma DisableWhenOffIsNoOp(s: Session, env: Storage, path: string)
    requires !s.loggingEnabled
    ensures EnableTransition(s, false, env, path) == Transition(s, None)
  {
  }

  /** Disabling when logging is on clears the flag and drops the package; it
      throws exactly when there was no package to close. */
  lemma DisableWhenOn(s: Session, env: Storage, path: string)
    requires s.loggingEnabled
    ensures EnableTransition(s, false, env, path).session == Session(false, None)
    ensures EnableTransition(s, false, env, path).fault.Some? <==> s.geoPackage.None?
  {
  }

  /** The flag becomes true exactly when storage is not writable or every step
      succeeds; a failed create or open leaves the flag as it was, and a failed
      setup leaves it as it was and escapes as an exception. */
  lemma EnableOutcomes(s: Session, env: Storage, path: string)
    ensures var t := EnableTransition(s, true, env, path);
      && (!env.writable ==> t == Transition(s.(loggingEnabled := true), None))
      && (env.writable && !env.createOk ==> t == Transition(s, None))
      && (env.writable && env.createOk && !env.openOk ==>
            t.session.loggingEnabled == s.loggingEnabled && t.session.geoPackage.None? && t.fault.None?)
      && (env.writable && env.createOk && env.openOk && !env.setupOk ==>
            t.session.loggingEnabled == s.loggingEnabled && t.fault == Some(SetupFailed))
      && (t.session.loggingEnabled <==>
            s.loggingEnabled || !env.writable || (env.createOk && env.openOk && env.setupOk))
  {
  }

  /** A session whose package has a feature table holds the LTE table, and
      every row stored in it fits the schema's column types. When every step
      succeeds the new package is at `path` with an empty LTE table; no
      transition ever puts any other table in place. */
  predicate TablesAreLte(s: Session) {
    s.geoPackage.Some? && s.geoPackage.value.features.Some? ==>
      var t := s.geoPackage.value.features.value;
      && t.name == LTE_RECORDS_TABLE_NAME && t.columns == LteSchema() && t.srsId == WGS84_SRS
      && forall row <- t.rows :: RowFitsSchema(row)
  }

  lemma EnablePreservesTables(s: Session, enable: bool, env: Storage, path: string)
    requires TablesAreLte(s)
    ensures TablesAreLte(EnableTransition(s, enable, env, path).session)
    ensures enable && env.writable && env.createOk && env.openOk && env.setupOk ==>
      EnableTransition(s, enable, env, path).session.geoPackage == Some(Package(path, Some(NewLteTable())))
  {
  }
}
