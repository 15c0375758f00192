/** The compatibility gate: one run decides, from the latest upstream release,
    the recorded last compatible version and the manifest's declared peer
    dependency, whether to install the release, whether to run the test
    suite, and whether to record the release as compatible.

    Every collaborator the script talks to (the release lookup, the manifest
    finder, the shell, the database) is an oracle: its outcome for this run
    is a field of `Oracle`. The environment flags are a `Config`. */
module CompatGate {
  import opened Tags

  datatype Option<T> = None | Some(value: T)

  /** Why a run fails: one per place the script throws. */
  datatype Failure =
    | UpstreamUnavailable  // the latest-release lookup rejected
    | ManifestNotFound     // no package.json was found
    | CdFailed             // changing into the manifest's directory failed
    | StoreUnavailable     // reading the compat record failed
    | DependencyMissing    // the manifest declares no peer dependency on next
    | InstallFailed        // `npm install --no-save next@<latest>` exited non-zero
    | TestFailed           // the unit or integration tests exited non-zero
    | StoreWriteFailed     // upserting the compat record, or closing the
                           // connection after it, failed

  datatype Result<T> = Ok(value: T) | Err(error: Failure)

  /** The environment flags the script reads, each true when the variable is
      set to a non-empty value: `mongoUri` for MONGODB_URI, `noDbUpdate` for
      NO_DB_UPDATE; and whether the script was started from the command line. */
  datatype Config = Config(mongoUri: bool, noDbUpdate: bool, isCli: bool)

  /** The nearest package.json; `peerNext` is its `peerDependencies.next`. */
  datatype Manifest = Manifest(peerNext: Option<string>)

  /** What each collaborator does in this run: the release tag (or a failed
      lookup), the manifest found (if any), the exit codes of `cd`, of the
      install and of the tests, whether the store read succeeds, whether the
      upsert lands, and whether closing the connection after it succeeds. */
  datatype Oracle = Oracle(
    release: Option<string>,
    manifest: Option<Manifest>,
    cdCode: int,
    readOk: bool,
    installCode: int,
    testCode: int,
    writeOk: bool,
    closeOk: bool)

  /** The effects a run has on the outside world, in the order performed. */
  datatype Effect = Install(version: string) | Test | Write(version: string)

  /** How a run reports back: as a library call it resolves to `true`
      (`Resolved`) or rejects with an error wrapping the failure; from the
      command line it terminates the process with a status. */
  datatype Report = Resolved | Rejected(cause: Failure) | Exit(status: int)

  /** The whole of one run: the failure it stops on (if any), the effects it
      performs and the compat record it leaves behind. */
  datatype Trace = Trace(failure: Option<Failure>, effects: seq<Effect>, record: Option<string>)

  /** The compat field as the read sees it: a missing record and an empty
      field both read as "". */
  function CompatOf(record: Option<string>): (v: string)
    ensures v == "" <==> record.None? || record == Some("")
    ensures v != "" ==> record == Some(v)
  {
    match record
    case None => ""
    case Some(compat) => compat
  }

  /** The last tested version: "" when no store is configured, otherwise the
      stored compat field, or a failure when the store cannot be read. */
  function LastTested(cfg: Config, readOk: bool, record: Option<string>): (r: Result<string>)
    ensures r.Err? <==> cfg.mongoUri && !readOk
    ensures r.Err? ==> r.error == StoreUnavailable
    ensures r == Ok("") <==> !cfg.mongoUri || (readOk && CompatOf(record) == "")
    ensures r.Ok? && r.value != "" ==> record == Some(r.value)
  {
    if cfg.mongoUri then
      if readOk then Ok(CompatOf(record)) else Err(StoreUnavailable)
    else
      Ok("")
  }

  /** The outcome of recording a version: whether the record was upserted,
      and the failure thrown, if any. The two are independent: an upsert that
      lands can still be followed by a failing close. */
  datatype Commit = Commit(wrote: bool, thrown: Option<Failure>)

  /** What recording a version does. It upserts when a store is configured,
      writes are not suppressed and the upsert lands. It throws when a store is
      configured, writes are not suppressed, and either the upsert or the close
      after it fails. */
  function Persist(cfg: Config, writeOk: bool, closeOk: bool): (r: Commit)
    ensures r.wrote <==> cfg.mongoUri && !cfg.noDbUpdate && writeOk
    ensures r.thrown.Some? <==> cfg.mongoUri && !cfg.noDbUpdate && !(writeOk && closeOk)
    ensures r.thrown.Some? ==> r.thrown.value == StoreWriteFailed
  {
    if cfg.mongoUri then
      if !cfg.noDbUpdate then
        if writeOk then
          Commit(true, if closeOk then None else Some(StoreWriteFailed))
        else
          Commit(false, Some(StoreWriteFailed))
      else
        Commit(false, None)
    else
      Commit(false, None)
  }

  /** The declared peer dependency on next, "" when there is none. */
  function DeclaredNext(m: Manifest): (r: string)
    ensures r == "" <==> m.peerNext.None? || m.peerNext == Some("")
    ensures r != "" ==> m.peerNext == Some(r)
  {
    match m.peerNext
    case None => ""
    case Some(d) => d
  }

  /** One run of the gate, as a function of the flags, the collaborators'
      outcomes and the record before the run. Its contract is the gate's
      central promise: the record changes only to the release just tested,
      only after that test passed, and only by the run's final effect. A run
      that changed the record can still fail, but only with the failure of
      closing the store connection after the upsert. */
  function Cycle(cfg: Config, o: Oracle, record: Option<string>): (t: Trace)
    ensures t.record == record
            || (o.release.Some? && t.record == Some(NormaliseTag(o.release.value))
                && o.testCode == 0 && Test in t.effects
                && t.effects[|t.effects| - 1] == Write(NormaliseTag(o.release.value))
                && (t.failure.None? || t.failure == Some(StoreWriteFailed)))
    ensures t.failure.Some? && t.failure != Some(StoreWriteFailed) ==> t.record == record
  {
    if o.release.None? then Trace(Some(UpstreamUnavailable), [], record)
    else
      var latest := NormaliseTag(o.release.value);
      if o.manifest.None? then Trace(Some(ManifestNotFound), [], record)
      else if o.cdCode != 0 then Trace(Some(CdFailed), [], record)
      else
        var prev := LastTested(cfg, o.readOk, record);
        if prev.Err? then Trace(Some(prev.error), [], record)
        else
          var dist := DeclaredNext(o.manifest.value);
          if dist == "" then Trace(Some(DependencyMissing), [], record)
          else if latest == prev.value then Trace(None, [], record)
          else
            var installed := if dist != latest then [Install(latest)] else [];
            if dist != latest && o.installCode != 0 then
              Trace(Some(InstallFailed), installed, record)
            else if o.testCode != 0 then
              Trace(Some(TestFailed), installed + [Test], record)
            else
              var commit := Persist(cfg, o.writeOk, o.closeOk);
              if commit.wrote then Trace(commit.thrown, installed + [Test, Write(latest)], Some(latest))
              else Trace(commit.thrown, installed + [Test], record)
  }

  /** How a run that stopped on `failure` (or on none) is reported. */
  function Reported(isCli: bool, failure: Option<Failure>): (r: Report)
    ensures r.Exit? <==> isCli
    ensures r.Exit? ==> (r.status == 0 <==> failure.None?) && (r.status == 0 || r.status == 1)
    ensures r == Resolved <==> !isCli && failure.None?
    ensures r.Rejected? ==> failure == Some(r.cause)
  {
    if isCli then Exit(if failure.None? then 0 else 1)
    else if failure.None? then Resolved
    else Rejected(failure.value)
  }

  /** The persisted compat record and the log of effects, updated in place by
      the steps of a run. */
  class Gate {
    /** The compat record in the store; `None` when no record exists. */
    var stored: Option<string>
    /** Every install, test run and successful write so far, in order. */
    var effects: seq<Effect>

    constructor (record: Option<string>)
      ensures stored == record && effects == []
    {
      stored := record;
      effects := [];
    }

    /** Reads the last tested version; touches nothing. */
    method GetLastTestedVersion(cfg: Config, readOk: bool) returns (r: Result<string>)
      ensures r == LastTested(cfg, readOk, stored)
    {
      var version := "";
      if cfg.mongoUri {
        if !readOk {
          return Err(StoreUnavailable);
        }
        version := CompatOf(stored);
      }
      r := Ok(version);
    }

    /** Records `version` as compatible, unless no store is configured or
        writes are suppressed; returns what it throws, if anything. */
    method SetCompatFlagTo(cfg: Config, version: string, writeOk: bool, closeOk: bool)
      returns (thrown: Option<Failure>)
      modifies this
      ensures thrown == Persist(cfg, writeOk, closeOk).thrown
      ensures stored == (if Persist(cfg, writeOk, closeOk).wrote then Some(version) else old(stored))
      ensures effects == old(effects)
                         + (if Persist(cfg, writeOk, closeOk).wrote then [Write(version)] else [])
    {
      if cfg.mongoUri {
        if !cfg.noDbUpdate {
          if !writeOk {
            return Some(StoreWriteFailed);
          }
          stored := Some(version);
          effects := effects + [Write(version)];
          if !closeOk {
            return Some(StoreWriteFailed);
          }
        }
      }
      thrown := None;
    }

    /** The body of the run up to the point where a failure would be caught:
        returns the failure it stopped on, or `None`. */
    method Steps(cfg: Config, o: Oracle) returns (failure: Option<Failure>)
      modifies this
      ensures failure == Cycle(cfg, o, old(stored)).failure
      ensures stored == Cycle(cfg, o, old(stored)).record
      ensures effects == old(effects) + Cycle(cfg, o, old(stored)).effects
    {
      if o.release.None? {
        return Some(UpstreamUnavailable);
      }
      var latest := NormaliseTag(o.release.value);
      if o.manifest.None? {
        return Some(ManifestNotFound);
      }
      if o.cdCode != 0 {
        return Some(CdFailed);
      }
      var prev := GetLastTestedVersion(cfg, o.readOk);
      if prev.Err? {
        return Some(prev.error);
      }
      var dist := DeclaredNext(o.manifest.value);
      if dist == "" {
        return Some(DependencyMissing);
      }
      if latest != prev.value {
        if dist != latest {
          effects := effects + [Install(latest)];
          if o.installCode != 0 {
            return Some(InstallFailed);
          }
        }
        effects := effects + [Test];
        if o.testCode != 0 {
          return Some(TestFailed);
        }
        var thrown := SetCompatFlagTo(cfg, latest, o.writeOk, o.closeOk);
        if thrown.Some? {
          return thrown;
        }
      }
      failure := None;
    }

    /** One run: the steps, then the failure caught and reported as the
        invocation mode requires. */
    method Run(cfg: Config, o: Oracle) returns (report: Report)
      modifies this
      ensures report == Reported(cfg.isCli, Cycle(cfg, o, old(stored)).failure)
      ensures stored == Cycle(cfg, o, old(stored)).record
      ensures effects == old(effects) + Cycle(cfg, o, old(stored)).effects
    {
      var error := false;
      var thrown := Steps(cfg, o);
      report := Resolved;
      if thrown.Some? {
        if cfg.isCli {
          error := true;
        } else {
          report := Rejected(thrown.value);
        }
      }
      if cfg.isCli {
        report := Exit(if error then 1 else 0);
      }
    }
  }
}
