/** One `logSurveyRecord` poll: the walk over the cell list with its early
    `break`, stated as a fold over the entries, and the properties of that
    walk: which entries count, where it stops, how records are numbered,
    which records are posted for writing, and in what order the effects of a
    serving record happen. */
module PollCycle {
  import opened Wrappers
  import opened LteRecords
  import opened CellView
  import opened Listeners

  /** One element of `getAllCellInfo()`: whether it is a `CellInfoLte`, whether
      it is the registered (serving) cell, its raw values, and the location
      and clock readings `generateLteSurveyRecord` would sample for it.
      `lookupThrows` says that `getLastKnownLocation` throws for it (a
      `SecurityException` without the location permission, an
      `IllegalArgumentException` when no provider is enabled and the best
      provider is null). */
  datatype CellEntry = CellEntry(isLte: bool, isRegistered: bool, raw: RawLte,
                                 fix: Option<Location>, lookupThrows: bool, time: int)

  /** An effect of a poll that leaves the writer: a write posted to the
      handler, a refresh of the visible Network Details screen, a listener
      callback. */
  datatype Effect = Posted(record: LteRecord) | Displayed(record: LteRecord)
                  | Notified(listener: ListenerId, record: LteRecord)

  /** What stays fixed during one poll. */
  datatype Context = Context(deviceId: string, missionId: string, groupNumber: int,
                             loggingEnabled: bool, listeners: seq<ListenerId>,
                             detailsVisible: bool)

  /** The writer state a poll changes. */
  datatype PollState = PollState(recordNumber: int, pending: seq<LteRecord>,
                                 screen: Screen, effects: seq<Effect>)

  /** The walk so far: the state, the records built (in order), and whether an
      invalid serving entry has ended the loop. */
  datatype Scan = Scan(state: PollState, built: seq<LteRecord>, stopped: bool)

  function Build(ctx: Context, e: CellEntry, recordNumber: int): Option<LteRecord> {
    BuildRecord(e.raw, e.fix, e.time, ctx.deviceId, ctx.missionId, recordNumber, ctx.groupNumber)
  }

  /** `writeSurveyRecordEntryToLogFile`: a post only while logging is on. */
  function Write(ctx: Context, st: PollState, r: LteRecord): PollState {
    if ctx.loggingEnabled then st.(pending := st.pending + [r], effects := st.effects + [Posted(r)])
    else st
  }

  /** `updateUi`: only while the Network Details screen is visible. */
  function Show(ctx: Context, st: PollState, r: LteRecord): PollState {
    if ctx.detailsVisible then st.(screen := Render(st.screen, r), effects := st.effects + [Displayed(r)])
    else st
  }

  /** One callback per listener, in registration order. */
  function Notifications(ls: seq<ListenerId>, r: LteRecord): (n: seq<Effect>)
    ensures |n| == |ls| && forall i :: 0 <= i < |ls| ==> n[i] == Notified(ls[i], r)
  {
    seq(|ls|, i requires 0 <= i < |ls| => Notified(ls[i], r))
  }

  /** The tail of `parseServingCellInfo` for a valid record. */
  function Serve(ctx: Context, st: PollState, r: LteRecord): PollState {
    var st := Show(ctx, Write(ctx, st, r), r);
    st.(effects := st.effects + Notifications(ctx.listeners, r))
  }

  /** A valid serving record is written, then shown, then broadcast to every
      listener in order, and nothing else happens to the queue or the number. */
  lemma ServeEffects(ctx: Context, st: PollState, r: LteRecord)
    ensures Serve(ctx, st, r).effects ==
      st.effects + (if ctx.loggingEnabled then [Posted(r)] else [])
                 + (if ctx.detailsVisible then [Displayed(r)] else [])
                 + Notifications(ctx.listeners, r)
    ensures Serve(ctx, st, r).pending == st.pending + (if ctx.loggingEnabled then [r] else [])
    ensures Serve(ctx, st, r).recordNumber == st.recordNumber
  {
  }

  /** One valid serving entry whose location lookup does not throw: the
      record is built with the next number, then posted (while logging is
      on), shown (while the screen is visible) and broadcast to every
      listener in order, and the loop goes on. */
  lemma StepServing(ctx: Context, sc: Scan, e: CellEntry)
    requires !sc.stopped && e.isLte && e.isRegistered && !e.lookupThrows
    requires Validate(e.raw.earfcn, e.raw.pci, e.raw.rsrp)
    ensures var r := Build(ctx, e, sc.state.recordNumber).value;
      var next := Step(ctx, sc, e);
      && !next.stopped && next.built == sc.built + [r]
      && next.state.recordNumber == sc.state.recordNumber + 1
      && next.state.effects == sc.state.effects
           + (if ctx.loggingEnabled then [Posted(r)] else [])
           + (if ctx.detailsVisible then [Displayed(r)] else [])
           + Notifications(ctx.listeners, r)
  {
    var r := Build(ctx, e, sc.state.recordNumber).value;
    ServeEffects(ctx, sc.state.(recordNumber := sc.state.recordNumber + 1), r);
  }

  /** One pass of the loop body. The location lookup runs only after
      `validate` has passed and before the record number is taken; when it
      throws, the exception leaves the loop and is caught at the end of the
      poll, so the scan stops exactly as after the `break`. */
  function Step(ctx: Context, sc: Scan, e: CellEntry): (next: Scan)
    ensures sc.stopped ==> next == sc
    ensures |sc.built| <= |next.built| <= |sc.built| + 1 && next.built[..|sc.built|] == sc.built
    ensures next.state.recordNumber == sc.state.recordNumber + (|next.built| - |sc.built|)
  {
    if sc.stopped || !e.isLte then sc
    else
      var st := sc.state;
      if e.isRegistered then
        match Build(ctx, e, st.recordNumber)
        case None => sc.(stopped := true)
        case Some(r) =>
          if e.lookupThrows then sc.(stopped := true)
          else Scan(Serve(ctx, st.(recordNumber := st.recordNumber + 1), r), sc.built + [r], false)
      else if ctx.loggingEnabled then
        match Build(ctx, e, st.recordNumber)
        case None => sc
        case Some(r) =>
          if e.lookupThrows then sc.(stopped := true)
          else Scan(Write(ctx, st.(recordNumber := st.recordNumber + 1), r), sc.built + [r], false)
      else sc
  }

  /** The loop over `cells`, entry by entry from the first. Records are only
      ever added, and a record number is taken exactly when a record is built. */
  function Run(ctx: Context, sc: Scan, cells: seq<CellEntry>): (result: Scan)
    ensures |sc.built| <= |result.built| && result.built[..|sc.built|] == sc.built
    ensures result.state.recordNumber == sc.state.recordNumber + (|result.built| - |sc.built|)
    decreases |cells|
  {
    if cells == [] then sc
    else Step(ctx, Run(ctx, sc, cells[..|cells| - 1]), cells[|cells| - 1])
  }

  lemma RunSnoc(ctx: Context, sc: Scan, cells: seq<CellEntry>, e: CellEntry)
    ensures Run(ctx, sc, cells + [e]) == Step(ctx, Run(ctx, sc, cells), e)
  {
    assert (cells + [e])[..|cells|] == cells;
  }

  /** A pass of the loop body depends on the state and not on the records
      built so far. */
  lemma StepFrom(ctx: Context, sc: Scan, e: CellEntry)
    requires !sc.stopped
    ensures Step(ctx, sc, e).state == Step(ctx, Scan(sc.state, [], false), e).state
    ensures Step(ctx, sc, e).stopped == Step(ctx, Scan(sc.state, [], false), e).stopped
  {
  }

  /** After the `break` nothing more is processed. */
  lemma {:induction false} RunAfterStop(ctx: Context, sc: Scan, cells: seq<CellEntry>, rest: seq<CellEntry>)
    requires Run(ctx, sc, cells).stopped
    ensures Run(ctx, sc, cells + rest) == Run(ctx, sc, cells)
    decreases |rest|
  {
    if rest != [] {
      var init := rest[..|rest| - 1];
      RunAfterStop(ctx, sc, cells, init);
      assert cells + rest == (cells + init) + [rest[|rest| - 1]];
      RunSnoc(ctx, sc, cells + init, rest[|rest| - 1]);
    } else {
      assert cells + rest == cells;
    }
  }

  /** A serving entry missing EARFCN, PCI or RSRP ends the poll: the entries
      before it have had their effects, it and every later entry have none. */
  lemma InvalidServingStops(ctx: Context, sc: Scan, cells: seq<CellEntry>, k: nat, rest: seq<CellEntry>)
    requires k < |cells| && !Run(ctx, sc, cells[..k]).stopped
    requires cells[k].isLte && cells[k].isRegistered
    requires !Validate(cells[k].raw.earfcn, cells[k].raw.pci, cells[k].raw.rsrp)
    ensures Run(ctx, sc, cells[..k + 1] + rest) == Run(ctx, sc, cells[..k]).(stopped := true)
  {
    RunSnoc(ctx, sc, cells[..k], cells[k]);
    assert cells[..k] + [cells[k]] == cells[..k + 1];
    RunAfterStop(ctx, sc, cells[..k + 1], rest);
  }

  /** A location lookup that throws for an entry that would otherwise build a
      record (a valid serving entry, or a valid neighbour while logging is on)
      ends the poll: nothing is built for it, no record number is taken, and
      no later entry has any effect. */
  lemma LookupFaultStops(ctx: Context, sc: Scan, cells: seq<CellEntry>, k: nat, rest: seq<CellEntry>)
    requires k < |cells| && !Run(ctx, sc, cells[..k]).stopped
    requires cells[k].isLte && (cells[k].isRegistered || ctx.loggingEnabled)
    requires Validate(cells[k].raw.earfcn, cells[k].raw.pci, cells[k].raw.rsrp) && cells[k].lookupThrows
    ensures Run(ctx, sc, cells[..k + 1] + rest) == Run(ctx, sc, cells[..k]).(stopped := true)
  {
    RunSnoc(ctx, sc, cells[..k], cells[k]);
    assert cells[..k] + [cells[k]] == cells[..k + 1];
    RunAfterStop(ctx, sc, cells[..k + 1], rest);
  }

  function LteOnly(cells: seq<CellEntry>): (r: seq<CellEntry>)
    ensures forall e <- r :: e.isLte
    ensures forall e <- cells :: e.isLte ==> e in r
    decreases |cells|
  {
    if cells == [] then []
    else
      var init := LteOnly(cells[..|cells| - 1]);
      var last := cells[|cells| - 1];
      assert cells == cells[..|cells| - 1] + [last];
      if last.isLte then init + [last] else init
  }

  /** Entries that are not `CellInfoLte` are ignored. */
  lemma {:induction false} NonLteIgnored(ctx: Context, sc: Scan, cells: seq<CellEntry>)
    ensures Run(ctx, sc, cells) == Run(ctx, sc, LteOnly(cells))
    decreases |cells|
  {
    if cells != [] {
      var init, last := cells[..|cells| - 1], cells[|cells| - 1];
      NonLteIgnored(ctx, sc, init);
      if last.isLte {
        RunSnoc(ctx, sc, LteOnly(init), last);
      }
    }
  }

  function ServingOnly(cells: seq<CellEntry>): (r: seq<CellEntry>)
    ensures forall e <- r :: e.isLte && e.isRegistered
    decreases |cells|
  {
    if cells == [] then []
    else
      var init := ServingOnly(cells[..|cells| - 1]);
      var last := cells[|cells| - 1];
      if last.isLte && last.isRegistered then init + [last] else init
  }

  /** While logging is off, neighbour entries build nothing and so consume no
      record numbers: the poll is the poll of the serving entries alone. */
  lemma {:induction false} NeighboursIgnoredWhenOff(ctx: Context, sc: Scan, cells: seq<CellEntry>)
    requires !ctx.loggingEnabled
    ensures Run(ctx, sc, cells) == Run(ctx, sc, ServingOnly(cells))
    decreases |cells|
  {
    if cells != [] {
      var init, last := cells[..|cells| - 1], cells[|cells| - 1];
      NeighboursIgnoredWhenOff(ctx, sc, init);
      if last.isLte && last.isRegistered {
        RunSnoc(ctx, sc, ServingOnly(init), last);
      }
    }
  }

  /** The numbering invariant: the records built since the poll began (from
      `base`) carry consecutive record numbers starting at `base`, all share
      the poll's group number, and the counter is just past the last one. */
  predicate NumberedFrom(ctx: Context, sc: Scan, start: nat, base: int) {
    && start <= |sc.built|
    && sc.state.recordNumber == base + (|sc.built| - start)
    && forall j :: start <= j < |sc.built| ==>
         sc.built[j].recordNumber == base + (j - start) && sc.built[j].groupNumber == ctx.groupNumber
  }

  lemma {:induction false} RunNumbering(ctx: Context, sc: Scan, cells: seq<CellEntry>)
    ensures NumberedFrom(ctx, Run(ctx, sc, cells), |sc.built|, sc.state.recordNumber)
    ensures Run(ctx, sc, cells).built[..|sc.built|] == sc.built
    decreases |cells|
  {
    if cells != [] {
      RunNumbering(ctx, sc, cells[..|cells| - 1]);
    }
  }

  /** One pass posts the record it builds while logging is on, and nothing
      otherwise. */
  lemma StepPosting(ctx: Context, sc: Scan, e: CellEntry)
    ensures var next := Step(ctx, sc, e);
      next.state.pending == sc.state.pending + (if ctx.loggingEnabled then next.built[|sc.built|..] else [])
  {
    var next := Step(ctx, sc, e);
    if |next.built| == |sc.built| {
      assert next.built[|sc.built|..] == [];
    }
  }

  /** Posting: while logging is on, every record built is posted, in order;
      while it is off, nothing is posted. */
  lemma {:induction false} RunPosting(ctx: Context, sc: Scan, cells: seq<CellEntry>)
    ensures Run(ctx, sc, cells).state.pending ==
      sc.state.pending + (if ctx.loggingEnabled then Run(ctx, sc, cells).built[|sc.built|..] else [])
    decreases |cells|
  {
    if cells != [] {
      var init, last := cells[..|cells| - 1], cells[|cells| - 1];
      var prev := Run(ctx, sc, init);
      RunPosting(ctx, sc, init);
      StepPosting(ctx, prev, last);
      var next := Step(ctx, prev, last);
      assert next.built == prev.built + next.built[|prev.built|..];
      assert next.built[|sc.built|..] == prev.built[|sc.built|..] + next.built[|prev.built|..];
    }
  }
}
