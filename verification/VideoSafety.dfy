/** That a take is always somewhere: over every run, and what must have happened in a run that loses it. */
module VideoSafety {
  import opened Options
  import opened VideoRows
  import opened VideoTake

  // --------------------------------------------------- what a run has in it

  /** Archived, released from the spool, and older than the cutoff. */
  predicate OldEnough(row: Option<Row>, cutoff: int) {
    row.Some? && row.value.state == Archived && row.value.freedAt.Some? && row.value.archivedAt < cutoff
  }

  /** The worker, about to delete, does so before it does anything else. */
  ghost predicate DeletesNext(s: State, steps: seq<Step>)
    decreases |steps|
  {
    && steps != [] && Enabled(s, steps[0])
    && (steps[0] == DeleteArchive || (Do(s, steps[0]).work == Expiring && DeletesNext(Do(s, steps[0]), steps[1..])))
  }

  /** Retention reads a row that is old enough, and goes on to delete from the archive. */
  ghost predicate RetentionDeletes(s: State, steps: seq<Step>)
    decreases |steps|
  {
    && steps != [] && Enabled(s, steps[0])
    && ((steps[0].ReadOld? && OldEnough(s.row, steps[0].cutoff) && DeletesNext(Do(s, steps[0]), steps[1..]))
        || RetentionDeletes(Do(s, steps[0]), steps[1..]))
  }

  predicate Lands(step: Step) {
    step.PutBytes? || step.LateBytes?
  }

  /** Other bytes of the take land after the service has looked at the right ones. */
  ghost predicate Overwrites(s: State, steps: seq<Step>)
    decreases |steps|
  {
    && steps != [] && Enabled(s, steps[0])
    && ((Lands(steps[0]) && steps[0].c != s.content && Relied(s.rig.letGo, s.calls))
        || Overwrites(Do(s, steps[0]), steps[1..]))
  }

  /** A sweep runs between the two writes of a put. */
  ghost predicate SweepsBetween(s: State, steps: seq<Step>)
    decreases |steps|
  {
    && steps != [] && Enabled(s, steps[0])
    && ((steps[0] == Sweep && s.rig.put == BytesOnly) || SweepsBetween(Do(s, steps[0]), steps[1..]))
  }

  lemma ExpiredOnlyBy(s: State, step: Step)
    requires Enabled(s, step)
    ensures Do(s, step).stores.expired ==> s.stores.expired || (step == DeleteArchive && s.work == Expiring)
    ensures Do(s, step).work == Expiring ==> s.work == Expiring || (step.ReadOld? && OldEnough(s.row, step.cutoff))
  {
    hide Head, ArchiveMatches, Judge;
  }

  /** An archive that has lost this take lost it to retention, which had read a row that was old enough. */
  lemma {:induction false} ExpiredByRetention(s: State, steps: seq<Step>, t: State)
    requires Reaches(s, steps, t) && t.stores.expired
    ensures s.stores.expired || (s.work == Expiring && DeletesNext(s, steps)) || RetentionDeletes(s, steps)
    decreases |steps|
  {
    hide Do, Enabled, OldEnough;
    if steps != [] {
      ExpiredOnlyBy(s, steps[0]);
      ExpiredByRetention(Do(s, steps[0]), steps[1..], t);
    }
  }

  lemma ClobberedOnlyBy(s: State, step: Step)
    requires Enabled(s, step)
    ensures Do(s, step).stores.clobbered ==>
              s.stores.clobbered || (Lands(step) && step.c != s.content && Relied(s.rig.letGo, s.calls))
  {
    hide Head, ArchiveMatches, Judge, Relied;
  }

  lemma {:induction false} ClobberedByLanding(s: State, steps: seq<Step>, t: State)
    requires Reaches(s, steps, t) && t.stores.clobbered
    ensures s.stores.clobbered || Overwrites(s, steps)
    decreases |steps|
  {
    hide Do, Enabled, Relied;
    if steps != [] {
      ClobberedOnlyBy(s, steps[0]);
      ClobberedByLanding(Do(s, steps[0]), steps[1..], t);
    }
  }

  lemma RacedOnlyBy(s: State, step: Step)
    requires Enabled(s, step)
    ensures Do(s, step).rig.raced <==> s.rig.raced || (step == Sweep && s.rig.put == BytesOnly)
  {
  }

  lemma {:induction false} RacedBySweep(s: State, steps: seq<Step>, t: State)
    requires Reaches(s, steps, t)
    ensures t.rig.raced <==> s.rig.raced || SweepsBetween(s, steps)
    decreases |steps|
  {
    hide Do, Enabled;
    if steps != [] {
      RacedOnlyBy(s, steps[0]);
      RacedBySweep(Do(s, steps[0]), steps[1..], t);
    }
  }

  // ------------------------------------------------------------ the theorems

  /** Once the rig has let go the row says the take's size and digest, and the spool or the archive holds
      its very bytes, whatever crashed, was lost, came late or ran beside it; or else the run has in it one
      of the two things that can end that. */
  lemma LetGoMeansHeld(content: Content, key: nat, steps: seq<Step>, s: State)
    requires Reaches(Init(content, key), steps, s) && s.rig.letGo
    ensures SameTake(content, s.row)
    ensures || Held(content, s.stores)
            || RetentionDeletes(Init(content, key), steps) || Overwrites(Init(content, key), steps)
  {
    hide Reaches, RetentionDeletes, Overwrites;
    var s0 := Init(content, key);
    RunKeeps(s0, steps, s);
    if s.stores.expired {
      ExpiredByRetention(s0, steps, s);
    }
    if s.stores.clobbered {
      ClobberedByLanding(s0, steps, s);
    }
  }

  /** From the moment the put returns the take is whole on the rig, in the spool or in the archive, or the
      run has in it one of three things. */
  lemma AlwaysSomewhere(content: Content, key: nat, steps: seq<Step>, s: State)
    requires Reaches(Init(content, key), steps, s) && s.rig.put == Stowed
    ensures || (s.rig.meta && s.rig.bin) || Held(content, s.stores) || SweepsBetween(Init(content, key), steps)
            || RetentionDeletes(Init(content, key), steps) || Overwrites(Init(content, key), steps)
  {
    hide Reaches, RetentionDeletes, Overwrites, SweepsBetween;
    var s0 := Init(content, key);
    RunKeeps(s0, steps, s);
    RacedBySweep(s0, steps, s);
    if s.rig.letGo {
      LetGoMeansHeld(content, key, steps, s);
    }
  }

  // ----------------------------------------------- one take, one uploader

  /** Only the shell's uploader asks, and what it puts lands before it is told or not at all. */
  ghost predicate OneUploader(steps: seq<Step>) {
    forall i :: 0 <= i < |steps| ==> !steps[i].LateBytes? && (steps[i].Ask? ==> steps[i].who == Shell)
  }

  /** The page uploads nothing; once the rig has let go there is no name to upload from. */
  ghost predicate Alone(s: State) {
    s.calls.page == Idle && (s.rig.letGo ==> s.calls.shell == Idle && !s.rig.meta && s.rig.put == Stowed)
  }

  lemma StaysAlone(s: State, step: Step)
    requires Alone(s) && RigOk(s.rig, s.calls.shell) && Enabled(s, step) && (step.Ask? ==> step.who == Shell)
    ensures Alone(Do(s, step))
  {
    hide Head, Judge, ArchiveMatches, RowAfter, StoresAfter, WorkAfter, WorkCan;
  }

  lemma AlonePutsBeforeTheLook(s: State, step: Step)
    requires Alone(s) && Enabled(s, step) && !step.LateBytes?
    ensures !(Lands(step) && Relied(s.rig.letGo, s.calls))
  {
    hide Head, Judge, ArchiveMatches, WorkCan;
  }

  lemma {:induction false} AloneOverwritesNothing(s: State, steps: seq<Step>, t: State)
    requires Alone(s) && RigOk(s.rig, s.calls.shell) && OneUploader(steps) && Reaches(s, steps, t)
    ensures !Overwrites(s, steps)
    decreases |steps|
  {
    hide Alone, RigOk, Do, Enabled, Relied;
    if steps != [] {
      StaysAlone(s, steps[0]);
      AlonePutsBeforeTheLook(s, steps[0]);
      RigKept(s, steps[0]);
      assert OneUploader(steps[1..]) by { assert forall i :: 0 <= i < |steps[1..]| ==> steps[1..][i] == steps[i + 1]; }
      AloneOverwritesNothing(Do(s, steps[0]), steps[1..], t);
    }
  }

  /** With one uploader a take the rig has let go of is held, until retention deletes it; and from the
      moment its put returned it was somewhere all along, unless a sweep ran between the two writes. */
  lemma OneUploaderKeepsIt(content: Content, key: nat, steps: seq<Step>, s: State)
    requires Reaches(Init(content, key), steps, s) && OneUploader(steps)
    ensures s.rig.letGo ==> SameTake(content, s.row)
    ensures s.rig.letGo ==> Held(content, s.stores) || RetentionDeletes(Init(content, key), steps)
    ensures s.rig.put == Stowed ==>
              || (s.rig.meta && s.rig.bin) || Held(content, s.stores)
              || RetentionDeletes(Init(content, key), steps) || SweepsBetween(Init(content, key), steps)
  {
    hide Reaches, RetentionDeletes, Overwrites, SweepsBetween, Held, OneUploader;
    AloneOverwritesNothing(Init(content, key), steps, s);
    if s.rig.letGo {
      LetGoMeansHeld(content, key, steps, s);
    }
    if s.rig.put == Stowed {
      AlwaysSomewhere(content, key, steps, s);
    }
  }

  // -------------------------------------------------- what may end it

  /** Nothing but retention ever empties the archive, and only from a row it had read as old enough. */
  lemma OnlyRetentionDeletes(content: Content, key: nat, steps: seq<Step>, s: State, step: Step)
    requires Reaches(Init(content, key), steps, s) && Enabled(s, step)
    requires s.stores.archive.Some? && Do(s, step).stores.archive == None
    ensures step == DeleteArchive && RetentionDeletes(Init(content, key), steps + [step])
  {
    hide Reaches, RetentionDeletes;
    var s0 := Init(content, key);
    OneMoreStep(s0, steps, s, step);
    ExpiredByRetention(s0, steps + [step], Do(s, step));
  }

  /** Bytes that land on a take the rig has let go of lose it exactly when they are not the take's and
      the archive does not hold it yet: then the copy they overwrite was the only one. */
  lemma LandingLosesIff(content: Content, key: nat, steps: seq<Step>, s: State, step: Step)
    requires Reaches(Init(content, key), steps, s) && s.rig.letGo && Enabled(s, step) && Lands(step)
    requires !RetentionDeletes(Init(content, key), steps) && !Overwrites(Init(content, key), steps)
    ensures !Held(content, Do(s, step).stores) <==> step.c != content && s.stores.archive != Some(content)
    ensures !Held(content, Do(s, step).stores) ==> s.stores.spool == Some(content)
  {
    hide Reaches, RetentionDeletes, Overwrites, Head, ArchiveMatches, Judge;
    LetGoMeansHeld(content, key, steps, s);
  }

  // ------------------------------------------------------ what a row says

  /** A row that has landed names the take's key, one given up on names none, and what is about to be
      recorded as archived is in the archive. */
  ghost predicate RowTells(s: State) {
    && (s.work == Archiving ==> s.stores.archive == Some(s.content))
    && (s.row.Some? ==> KeyFits(s.row.value, s.key))
    && (s.work != Resting && s.work != GivingUp && s.row.Some? ==>
          s.row.value.state != Pending && s.row.value.state != Missing)
  }

  predicate KeyFits(row: Row, key: nat) {
    match row.state
    case Pending => row.key == None || row.key == Some(key)
    case Missing => row.key == None
    case _ => row.key == Some(key)
  }

  lemma RowTellsOn(s: State, step: Step)
    requires ToldOk(s) && RowTells(s) && Enabled(s, step)
    ensures RowTells(Do(s, step))
  {
    hide Head, Judge, ArchiveMatches, CallsAfter, Relied, RigCan, RigAfter, Answered, RowOk;
    if step.HeadCopy? {
      MatchIffTheSame(s.work.row, s.stores.archive, step.told, s.content);
    }
  }

  lemma {:induction false} RunTells(s: State, steps: seq<Step>, t: State)
    requires Inv(s) && RowTells(s) && Reaches(s, steps, t)
    ensures Inv(t) && RowTells(t) && t.content == s.content && t.key == s.key
    decreases |steps|
  {
    hide ToldOk, StoresOk, RigOk, RowTells, Enabled, RigAfter, CallsAfter, StoresAfter, RowAfter, WorkAfter;
    if steps != [] {
      RowTellsOn(s, steps[0]);
      ToldKept(s, steps[0]);
      StoresKept(s, steps[0]);
      RigKept(s, steps[0]);
      RunTells(Do(s, steps[0]), steps[1..], t);
    }
  }

  /** In every reachable state: a row is recorded as archived, and a spool copy deleted, only while the archive
      holds the very bytes; a confirm is recorded only for a take whose bytes the rig reported; and the row
      names the take's key from the moment it has landed, unless it was given up on. */
  lemma NothingOnHope(content: Content, key: nat, steps: seq<Step>, s: State, step: Step)
    requires Reaches(Init(content, key), steps, s) && Enabled(s, step)
    ensures step.CommitArchived? || step == DeleteSpool ==> s.stores.archive == Some(content)
    ensures step.CommitArchived? ==>
              && Do(s, step).row.Some? && Do(s, step).row.value.state == Archived
              && Do(s, step).row.value.archivedAt == step.now
    ensures step.CommitFreed? ==> Do(s, step).row.Some? && Do(s, step).row.value.freedAt == Some(step.now)
    ensures step.CommitConfirm? ==>
              && SameTake(content, Do(s, step).row) && Do(s, step).row.value.state == OnPrem
              && Do(s, step).row.value.key == Some(key) && Do(s, step).row.value.storedAt == step.now
    ensures s.row.Some? ==> KeyFits(s.row.value, key)
  {
    hide Reaches, Head, Judge, ArchiveMatches;
    RunTells(Init(content, key), steps, s);
  }

  /** A row is dated when the service first hears of the take, and every later date is written by the one step
      that it is the date of. */
  lemma RowIsDatedOnce(s: State, step: Step)
    requires Enabled(s, step) && Do(s, step).row.Some?
    ensures var r := Do(s, step).row.value;
            && (s.row == None ==>
                  match step
                  case Ask(_, now) => r.receivedAt == now
                  case CommitConfirm(_, now) => r.receivedAt == now
                  case CommitOrphan(now) => r.receivedAt == now
                  case _ => false)
            && (s.row.Some? ==>
                  && r.receivedAt == s.row.value.receivedAt
                  && (r.storedAt == s.row.value.storedAt || step.CommitConfirm? || step.CommitOrphan?)
                  && (r.archivedAt == s.row.value.archivedAt || step.CommitArchived?)
                  && (r.freedAt == s.row.value.freedAt || step.CommitFreed?))
  {
    hide Head, ArchiveMatches, Judge;
  }

  // ---------------------------------------------------- giving up, and expiring

  /** The worker reads a row still pending and received before the cutoff. */
  ghost predicate GivesUp(s: State, steps: seq<Step>)
    decreases |steps|
  {
    && steps != [] && Enabled(s, steps[0])
    && ((steps[0].ReadPending? && s.row.Some? && s.row.value.state == Pending
         && s.row.value.receivedAt < steps[0].cutoff)
        || GivesUp(Do(s, steps[0]), steps[1..]))
  }

  ghost predicate GivenUp(s: State) {
    s.work == GivingUp || (s.row.Some? && s.row.value.state == Missing)
  }

  lemma GivenUpOnlyBy(s: State, step: Step)
    requires Enabled(s, step)
    ensures GivenUp(Do(s, step)) ==>
              GivenUp(s) || (step.ReadPending? && s.row.Some? && s.row.value.state == Pending
                             && s.row.value.receivedAt < step.cutoff)
  {
    hide Head, ArchiveMatches, Judge;
  }

  /** A take is given up on only after a row had waited past the cutoff. */
  lemma {:induction false} GivenUpAfterWaiting(s: State, steps: seq<Step>, t: State)
    requires Reaches(s, steps, t) && GivenUp(t)
    ensures GivenUp(s) || GivesUp(s, steps)
    decreases |steps|
  {
    hide Do, Enabled, GivenUp;
    if steps != [] {
      GivenUpOnlyBy(s, steps[0]);
      GivenUpAfterWaiting(Do(s, steps[0]), steps[1..], t);
    }
  }

  /** The worker has deleted from the archive and has yet to say so, or has said so. */
  ghost predicate Buried(s: State) {
    s.work == Burying || (s.row.Some? && s.row.value.state == Expired)
  }

  lemma BuriedOnlyBy(s: State, step: Step)
    requires Enabled(s, step)
    ensures Buried(Do(s, step)) ==> Buried(s) || (step == DeleteArchive && s.work == Expiring)
    ensures Do(s, step).work == Expiring ==> s.work == Expiring || (step.ReadOld? && OldEnough(s.row, step.cutoff))
  {
    hide Head, ArchiveMatches, Judge;
  }

  /** A row says expired only after retention had read it as old enough and deleted from the archive. */
  lemma {:induction false} ExpiredRowByRetention(s: State, steps: seq<Step>, t: State)
    requires Reaches(s, steps, t) && Buried(t)
    ensures Buried(s) || (s.work == Expiring && DeletesNext(s, steps)) || RetentionDeletes(s, steps)
    decreases |steps|
  {
    hide Do, Enabled, OldEnough, Buried;
    if steps != [] {
      BuriedOnlyBy(s, steps[0]);
      ExpiredRowByRetention(Do(s, steps[0]), steps[1..], t);
    }
  }
}
