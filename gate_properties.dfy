/** What the gate promises about one run and about a series of runs that
    share the persisted compat record. */
module GateProperties {
  import opened Tags
  import opened CompatGate

  /** The normalised latest release of a run whose lookup succeeded. */
  function Latest(o: Oracle): string
    requires o.release.Some?
  {
    NormaliseTag(o.release.value)
  }

  /** Every check that precedes the version comparison passes: the release
      was found, a manifest was found and entered, the store (if configured)
      was read, and the manifest declares a peer dependency on next. */
  predicate SetupOk(cfg: Config, o: Oracle)
  {
    o.release.Some? && o.manifest.Some? && o.cdCode == 0
    && (cfg.mongoUri ==> o.readOk) && DeclaredNext(o.manifest.value) != ""
  }

  /** The last tested version of a run whose setup passed. */
  function Prev(cfg: Config, o: Oracle, record: Option<string>): string
    requires SetupOk(cfg, o)
  {
    LastTested(cfg, o.readOk, record).value
  }

  /** The install that precedes the test exists exactly when the declared
      dependency differs from the latest release, and it succeeded. */
  predicate InstallPasses(cfg: Config, o: Oracle)
    requires SetupOk(cfg, o)
  {
    DeclaredNext(o.manifest.value) == Latest(o) || o.installCode == 0
  }

  /** No new release: nothing is installed, tested or written, and the run
      succeeds. */
  lemma NoOpWhenUpToDate(cfg: Config, o: Oracle, record: Option<string>)
    requires SetupOk(cfg, o) && Latest(o) == Prev(cfg, o, record)
    ensures Cycle(cfg, o, record) == Trace(None, [], record)
  {
  }

  /** After the setup checks, a run has effects exactly when the latest
      release differs from the last tested version. */
  lemma EffectsIffNewRelease(cfg: Config, o: Oracle, record: Option<string>)
    requires SetupOk(cfg, o)
    ensures Cycle(cfg, o, record).effects != [] <==> Latest(o) != Prev(cfg, o, record)
  {
  }

  /** A new release is installed once, first, when the manifest declares a
      different version; otherwise nothing is installed and the test runs
      first. */
  lemma InstallRule(cfg: Config, o: Oracle, record: Option<string>)
    requires SetupOk(cfg, o) && Latest(o) != Prev(cfg, o, record)
    ensures var t := Cycle(cfg, o, record);
            && t.effects != []
            && (DeclaredNext(o.manifest.value) != Latest(o) ==>
                  t.effects[0] == Install(Latest(o))
                  && forall i :: 0 < i < |t.effects| ==> !t.effects[i].Install?)
            && (DeclaredNext(o.manifest.value) == Latest(o) ==>
                  t.effects[0] == Test
                  && forall i :: 0 <= i < |t.effects| ==> !t.effects[i].Install?)
  {
  }

  /** A failed install ends the run: no test, no write, record unchanged. */
  lemma InstallFailureAborts(cfg: Config, o: Oracle, record: Option<string>)
    requires SetupOk(cfg, o) && Latest(o) != Prev(cfg, o, record)
    requires DeclaredNext(o.manifest.value) != Latest(o) && o.installCode != 0
    ensures Cycle(cfg, o, record) == Trace(Some(InstallFailed), [Install(Latest(o))], record)
  {
  }

  /** A failed test fails the run and leaves the record as it was; the test
      is the last effect. */
  lemma TestFailureIsolation(cfg: Config, o: Oracle, record: Option<string>)
    requires SetupOk(cfg, o) && Latest(o) != Prev(cfg, o, record)
    requires InstallPasses(cfg, o) && o.testCode != 0
    ensures var t := Cycle(cfg, o, record);
            && t.failure == Some(TestFailed)
            && t.record == record
            && t.effects != [] && t.effects[|t.effects| - 1] == Test
            && forall i :: 0 <= i < |t.effects| ==> !t.effects[i].Write?
  {
  }

  /** Whatever happens, a write records exactly the release of this run,
      comes right after a passing test and ends the run. The run succeeds
      exactly when closing the store connection afterwards succeeds. */
  lemma WriteOnlyAfterPassingTest(cfg: Config, o: Oracle, record: Option<string>)
    ensures var t := Cycle(cfg, o, record);
            forall i :: 0 <= i < |t.effects| && t.effects[i].Write? ==>
              && o.release.Some? && t.effects[i] == Write(Latest(o))
              && o.testCode == 0
              && (t.failure.None? <==> o.closeOk)
              && (t.failure.Some? ==> t.failure == Some(StoreWriteFailed))
              && i == |t.effects| - 1 && i > 0 && t.effects[i - 1] == Test
              && t.record == Some(Latest(o))
  {
    var t := Cycle(cfg, o, record);
    if SetupOk(cfg, o) && Latest(o) != Prev(cfg, o, record) && InstallPasses(cfg, o)
       && o.testCode == 0 && Persist(cfg, o.writeOk, o.closeOk).wrote {
      var installed := if DeclaredNext(o.manifest.value) != Latest(o) then [Install(Latest(o))] else [];
      assert t.effects == installed + [Test, Write(Latest(o))];
    } else {
      assert forall i :: 0 <= i < |t.effects| ==> !t.effects[i].Write?;
    }
  }

  /** A passing test with a configured, enabled and working store records the
      release and the run succeeds. */
  lemma PassingTestCommits(cfg: Config, o: Oracle, record: Option<string>)
    requires SetupOk(cfg, o) && Latest(o) != Prev(cfg, o, record)
    requires InstallPasses(cfg, o) && o.testCode == 0
    requires cfg.mongoUri && !cfg.noDbUpdate && o.writeOk && o.closeOk
    ensures var t := Cycle(cfg, o, record);
            && t.failure.None?
            && t.record == Some(Latest(o))
            && t.effects[|t.effects| - 1] == Write(Latest(o))
  {
  }

  /** With no store, or with writes suppressed, a passing run writes nothing,
      leaves the record unchanged and still succeeds. */
  lemma WriteSuppression(cfg: Config, o: Oracle, record: Option<string>)
    requires SetupOk(cfg, o) && Latest(o) != Prev(cfg, o, record)
    requires InstallPasses(cfg, o) && o.testCode == 0
    requires !cfg.mongoUri || cfg.noDbUpdate
    ensures var t := Cycle(cfg, o, record);
            && t.failure.None?
            && t.record == record
            && t.effects[|t.effects| - 1] == Test
  {
  }

  /** An upsert that fails fails the run; the record is unchanged. */
  lemma WriteFailureFails(cfg: Config, o: Oracle, record: Option<string>)
    requires SetupOk(cfg, o) && Latest(o) != Prev(cfg, o, record)
    requires InstallPasses(cfg, o) && o.testCode == 0
    requires cfg.mongoUri && !cfg.noDbUpdate && !o.writeOk
    ensures var t := Cycle(cfg, o, record);
            t.failure == Some(StoreWriteFailed) && t.record == record
  {
  }

  /** An upsert that lands followed by a failing close fails the run, yet the
      record already holds the release: a failed run is not always free of
      durable effects. */
  lemma CloseFailureAfterUpsert(cfg: Config, o: Oracle, record: Option<string>)
    requires SetupOk(cfg, o) && Latest(o) != Prev(cfg, o, record)
    requires InstallPasses(cfg, o) && o.testCode == 0
    requires cfg.mongoUri && !cfg.noDbUpdate && o.writeOk && !o.closeOk
    ensures var t := Cycle(cfg, o, record);
            && t.failure == Some(StoreWriteFailed)
            && t.record == Some(Latest(o))
            && t.effects[|t.effects| - 1] == Write(Latest(o))
  {
  }

  /** The last tested version reads as "" exactly when no store is
      configured, or the store holds no record or an empty compat field; any
      non-empty release then runs a test cycle (unless its install fails). */
  lemma EmptyLastTestedForcesCycle(cfg: Config, o: Oracle, record: Option<string>)
    requires SetupOk(cfg, o)
    requires !cfg.mongoUri || record.None? || record == Some("")
    requires Latest(o) != ""
    ensures Prev(cfg, o, record) == ""
    ensures InstallPasses(cfg, o) ==> Test in Cycle(cfg, o, record).effects
    ensures !InstallPasses(cfg, o) ==> Cycle(cfg, o, record).effects == [Install(Latest(o))]
  {
  }

  /** A failed setup check fails the run before any effect, even when the
      release is the one already recorded; the checks fail in source order. */
  lemma SetupFailuresComeFirst(cfg: Config, o: Oracle, record: Option<string>)
    requires !SetupOk(cfg, o)
    ensures var t := Cycle(cfg, o, record);
            && t.failure.Some? && t.effects == [] && t.record == record
            && (o.release.None? ==> t.failure == Some(UpstreamUnavailable))
            && (o.release.Some? && o.manifest.None? ==> t.failure == Some(ManifestNotFound))
            && (o.release.Some? && o.manifest.Some? && o.cdCode != 0 ==> t.failure == Some(CdFailed))
            && (o.release.Some? && o.manifest.Some? && o.cdCode == 0 && cfg.mongoUri && !o.readOk
                ==> t.failure == Some(StoreUnavailable))
            && (o.release.Some? && o.manifest.Some? && o.cdCode == 0 && (cfg.mongoUri ==> o.readOk)
                ==> t.failure == Some(DependencyMissing))
  {
  }

  /** Without a store the run neither reads nor changes the record: two runs
      with the same outcomes behave alike whatever the record holds, so a
      non-empty release is re-tested every time. */
  lemma NoStoreIgnoresRecord(cfg: Config, o: Oracle, r1: Option<string>, r2: Option<string>)
    requires !cfg.mongoUri
    ensures Cycle(cfg, o, r1).record == r1
    ensures Cycle(cfg, o, r1).failure == Cycle(cfg, o, r2).failure
    ensures Cycle(cfg, o, r1).effects == Cycle(cfg, o, r2).effects
  {
  }

  /** With a store configured and writes enabled, a successful run leaves a
      record that makes the next run with the same release a no-op: either
      it wrote the release, or it took the no-op path because the record
      already named it. */
  lemma RerunIsNoOp(cfg: Config, o1: Oracle, o2: Oracle, record: Option<string>)
    requires cfg.mongoUri && !cfg.noDbUpdate
    requires o1.release.Some? && Cycle(cfg, o1, record).failure.None?
    requires SetupOk(cfg, o2) && Latest(o2) == Latest(o1)
    ensures var after := Cycle(cfg, o1, record).record;
            Cycle(cfg, o2, after) == Trace(None, [], after)
  {
  }

  /** The record after a series of runs, each starting from the record the
      previous one left. */
  function Replay(cfg: Config, runs: seq<Oracle>, record: Option<string>): Option<string>
  {
    if runs == [] then record
    else Cycle(cfg, runs[|runs| - 1], Replay(cfg, runs[..|runs| - 1], record)).record
  }

  /** Run `i` of the series passed its test and recorded `v`, its own
      release. */
  predicate CommittedAt(cfg: Config, runs: seq<Oracle>, record: Option<string>, i: int, v: string)
    requires 0 <= i < |runs|
  {
    var t := Cycle(cfg, runs[i], Replay(cfg, runs[..i], record));
    runs[i].release.Some? && v == Latest(runs[i])
    && runs[i].testCode == 0 && Test in t.effects
    && Write(v) in t.effects && t.record == Some(v)
  }

  /** Over any series of runs sharing one store, the record is either the
      one the series started from or a version some run of the series
      tested, passed and wrote. */
  lemma {:induction false} RecordIsAlwaysTested(cfg: Config, runs: seq<Oracle>, record: Option<string>)
    ensures var last := Replay(cfg, runs, record);
            last == record
            || (last.Some? && exists i :: 0 <= i < |runs| && CommittedAt(cfg, runs, record, i, last.value))
  {
    if runs != [] {
      var n := |runs| - 1;
      var before := Replay(cfg, runs[..n], record);
      var t := Cycle(cfg, runs[n], before);
      assert runs[..n] == runs[..n][..n];
      if t.record == before {
        RecordIsAlwaysTested(cfg, runs[..n], record);
        if before != record {
          var i :| 0 <= i < n && CommittedAt(cfg, runs[..n], record, i, before.value);
          assert runs[..n][..i] == runs[..i];
          assert CommittedAt(cfg, runs, record, i, before.value);
        }
      } else {
        assert CommittedAt(cfg, runs, record, n, t.record.value);
      }
    }
  }

  /** A series in which no test passes never changes the record. */
  lemma {:induction false} NoPassNoChange(cfg: Config, runs: seq<Oracle>, record: Option<string>)
    requires forall i :: 0 <= i < |runs| ==> runs[i].testCode != 0
    ensures Replay(cfg, runs, record) == record
  {
    if runs != [] {
      NoPassNoChange(cfg, runs[..|runs| - 1], record);
    }
  }

  /** The upgrade scenario: recorded 12.9.0, release v13.0.0, declared
      12.9.0, everything passes: one install of 13.0.0, one test, and the
      record becomes 13.0.0. */
  lemma UpgradeScenario()
    ensures Cycle(Config(true, false, false),
                  Oracle(Some("v13.0.0"), Some(Manifest(Some("12.9.0"))), 0, true, 0, 0, true, true),
                  Some("12.9.0"))
            == Trace(None, [Install("13.0.0"), Test, Write("13.0.0")], Some("13.0.0"))
  {
  }

  /** The first-run scenario: nothing recorded, release 13.0.0 (declared
      already), test passes: the record becomes 13.0.0 with no install. */
  lemma FirstRunScenario()
    ensures Cycle(Config(true, false, false),
                  Oracle(Some("13.0.0"), Some(Manifest(Some("13.0.0"))), 0, true, 1, 0, true, true),
                  None)
            == Trace(None, [Test, Write("13.0.0")], Some("13.0.0"))
  {
  }
}
