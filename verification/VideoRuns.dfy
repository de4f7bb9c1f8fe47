/** The ways a take can be lost or stuck after all, each as one run. */
module VideoRuns {
  import opened Options
  import opened VideoRows
  import opened VideoTake

  lemma Go(s0: State, steps: seq<Step>, s: State, step: Step) returns (t: State, more: seq<Step>)
    requires Reaches(s0, steps, s) && Enabled(s, step)
    ensures t == Do(s, step) && more == steps + [step] && Reaches(s0, more, t)
  {
    OneMoreStep(s0, steps, s, step);
    t, more := Do(s, step), steps + [step];
  }

  /** A take recorded and stowed, both uploaders told where to put it. */
  lemma Stow(content: Content, key: nat) returns (s: State, steps: seq<Step>)
    ensures Reaches(Init(content, key), steps, s)
    ensures s == State(content, key, Rig(true, true, true, Stowed, false, false), Calls(Told, Told, false),
                       Stores(None, None, false, false), s.row, Resting)
    ensures s.row == Some(Row(Pending, Some(key), None, None, 0, 0, 0, None))
  {
    hide Reaches;
    var s0 := Init(content, key);
    s, steps := s0, [];
    assert Reaches(s0, [], s0) by { hide *; StartsHere(s0); }
    s, steps := Go(s0, steps, s, TakeSaved);
    s, steps := Go(s0, steps, s, WriteBytes);
    s, steps := Go(s0, steps, s, WriteMeta);
    s, steps := Go(s0, steps, s, Ask(Page, 0));
    s, steps := Go(s0, steps, s, Ask(Shell, 0));
  }

  lemma StartsHere(s: State)
    ensures Reaches(s, [], s)
  {
  }

  /** The whole take put by the shell's uploader, looked at by the service. */
  lemma PutAndLook(s0: State, before: seq<Step>, from: State) returns (s: State, steps: seq<Step>)
    requires Reaches(s0, before, from) && from.calls.shell == Told
    ensures Reaches(s0, steps, s)
    ensures s == from.(calls := from.calls.(shell := Vouched),
                       stores := Stores(Some(from.content), from.stores.archive, false, false))
  {
    hide Reaches;
    s, steps := Go(s0, before, from, PutBytes(Shell, from.content));
    s, steps := Go(s0, steps, s, HeadConfirms(Shell, true));
  }

  /** And recorded. */
  lemma Record(s0: State, before: seq<Step>, from: State) returns (s: State, steps: seq<Step>)
    requires Reaches(s0, before, from) && from.calls.shell == Vouched
    ensures Reaches(s0, steps, s)
    ensures s == from.(calls := from.calls.(shell := Recorded), row := Some(RowConfirmed(from, 0)))
  {
    hide Reaches;
    s, steps := Go(s0, before, from, CommitConfirm(Shell, 0));
  }

  /** Told yes, the shell deletes both files. */
  lemma Forget(s0: State, before: seq<Step>, from: State) returns (s: State, steps: seq<Step>)
    requires Reaches(s0, before, from) && from.calls.shell == Recorded && from.rig.put == Stowed
    ensures Reaches(s0, steps, s)
    ensures s == from.(calls := from.calls.(shell := Idle),
                       rig := from.rig.(bin := false, meta := false, letGo := true))
  {
    hide Reaches;
    s, steps := Go(s0, before, from, Yes(Shell));
    s, steps := Go(s0, steps, s, LetGo(Shell));
    s, steps := Go(s0, steps, s, DropBytes);
  }

  /** Two uploaders for one take: the shell's is confirmed and lets go; the page's, cut short, then
      overwrites the spool, and the power goes. Nobody has the take. */
  lemma SecondUploaderLosesIt(content: Content, key: nat, short: Content) returns (s: State, steps: seq<Step>)
    requires short != content
    ensures Reaches(Init(content, key), steps, s)
    ensures s.rig.letGo && !s.stores.expired && !s.rig.raced
    ensures !s.rig.memory && !s.rig.bin && !Held(content, s.stores) && SameTake(content, s.row)
  {
    hide Reaches;
    var s0 := Init(content, key);
    s, steps := Stow(content, key);
    s, steps := PutAndLook(s0, steps, s);
    s, steps := Record(s0, steps, s);
    s, steps := Forget(s0, steps, s);
    s, steps := Go(s0, steps, s, PutBytes(Page, short));
    s, steps := Go(s0, steps, s, PowerCut);
  }

  /** The uploader's load sweeps any bytes that have no name yet. When it runs between the two
      writes of a put, the put still returns and the rig holds a name with no bytes behind it; after a
      power cut the take is nowhere, and the uploader forgets the name without a word. */
  lemma SweepBetweenTheWritesLosesIt(content: Content, key: nat) returns (s: State, steps: seq<Step>)
    ensures Reaches(Init(content, key), steps, s)
    ensures s.rig.put == Stowed && !s.rig.letGo && !s.stores.expired && !s.stores.clobbered
    ensures !s.rig.memory && !s.rig.bin && !s.rig.meta && !Held(content, s.stores)
  {
    hide Reaches;
    var s0 := Init(content, key);
    s, steps := s0, [];
    assert Reaches(s0, [], s0) by { hide *; StartsHere(s0); }
    s, steps := Go(s0, steps, s, TakeSaved);
    s, steps := Go(s0, steps, s, WriteBytes);
    s, steps := Go(s0, steps, s, Sweep);
    s, steps := Go(s0, steps, s, WriteMeta);
    s, steps := Go(s0, steps, s, PowerCut);
    s, steps := Go(s0, steps, s, ForgetUnread);
  }

  /** Copied, checked and recorded. */
  lemma CopyOver(s0: State, before: seq<Step>, from: State) returns (s: State, steps: seq<Step>)
    requires Reaches(s0, before, from) && from.work == Resting && from.row.Some?
    requires from.row.value.state == OnPrem && from.row.value.key.Some?
    requires from.stores.spool == Some(from.content) && SameTake(from.content, from.row)
    ensures Reaches(s0, steps, s)
    ensures s == from.(stores := from.stores.(archive := Some(from.content)),
                       row := Some(from.row.value.(state := Archived, archivedAt := 0)))
  {
    hide Reaches;
    MatchIffTheSame(from.row.value, Some(from.content), true, from.content);
    s, steps := Go(s0, before, from, ReadOnPrem);
    s, steps := Go(s0, steps, s, CopySome(from.content));
    s, steps := Go(s0, steps, s, HeadCopy(true));
    s, steps := Go(s0, steps, s, CommitArchived(0));
  }

  /** Read again and checked again, about to be released from the spool. */
  lemma AboutToRelease(s0: State, before: seq<Step>, from: State) returns (s: State, steps: seq<Step>)
    requires Reaches(s0, before, from) && from.work == Resting && from.row.Some?
    requires from.row.value.state == Archived && from.row.value.key.Some? && from.row.value.freedAt == None
    requires from.stores.archive == Some(from.content) && SameTake(from.content, from.row)
    ensures Reaches(s0, steps, s) && s == from.(work := Deleting)
  {
    hide Reaches;
    MatchIffTheSame(from.row.value, from.stores.archive, true, from.content);
    s, steps := Go(s0, before, from, ReadArchived);
    s, steps := Go(s0, steps, s, HeadRelease(true));
  }

  /** Uploaded once and archived, with the reply lost; then uploaded and looked at a second time, while
      the worker is about to release the spool. */
  lemma LookedAtTwice(content: Content, key: nat) returns (s: State, steps: seq<Step>)
    ensures Reaches(Init(content, key), steps, s)
    ensures s.content == content && s.work == Deleting && s.calls.shell == Vouched && s.row.Some?
    ensures s.stores == Stores(Some(content), Some(content), false, false)
  {
    hide Reaches, Stopped;
    var s0 := Init(content, key);
    s, steps := Stow(content, key);
    s, steps := PutAndLook(s0, steps, s);
    s, steps := Record(s0, steps, s);
    s, steps := CopyOver(s0, steps, s);
    s, steps := AboutToRelease(s0, steps, s);
    s, steps := AskAgain(s0, steps, s);
    s, steps := PutAndLook(s0, steps, s);
  }

  /** The reply was lost: the uploader goes round again. */
  lemma AskAgain(s0: State, before: seq<Step>, from: State) returns (s: State, steps: seq<Step>)
    requires Reaches(s0, before, from) && from.calls.shell == Recorded && from.rig.meta && from.rig.bin
    requires from.row.Some? && from.row.value.state == Archived
    ensures Reaches(s0, steps, s) && s == from.(calls := from.calls.(shell := Told))
  {
    hide Reaches;
    s, steps := Go(s0, before, from, GiveUp(Shell));
    s, steps := Go(s0, steps, s, Ask(Shell, 0));
  }

  /** A confirm that looked before the spool copy was released commits after it: the row is back to
      on_prem with nothing in the spool, so a copy to the archive cannot even start; and its stale
      freed_at means no later pass would release a spool copy either. */
  lemma ConfirmAcrossReleaseStrandsTheRow(content: Content, key: nat) returns (s: State, steps: seq<Step>)
    ensures Reaches(Init(content, key), steps, s)
    ensures s.work == Resting && s.row.Some? && s.row.value.state == OnPrem && s.row.value.freedAt.Some?
    ensures s.stores.spool == None && s.stores.archive == Some(content)
    ensures forall c :: !WorkCan(s.(work := Draining(s.row.value)), CopySome(c))
  {
    hide Reaches;
    var s0 := Init(content, key);
    s, steps := LookedAtTwice(content, key);
    s, steps := Go(s0, steps, s, DeleteSpool);
    s, steps := Go(s0, steps, s, CommitFreed(0));
    s, steps := Go(s0, steps, s, CommitConfirm(Shell, 0));
  }

  lemma WaitedTooLong(content: Content, key: nat) returns (s: State, steps: seq<Step>)
    ensures Reaches(Init(content, key), steps, s)
    ensures s == State(content, key, Rig(true, true, true, Stowed, false, false), Calls(Told, Vouched, false),
                       Stores(Some(content), None, false, false), s.row, GivingUp)
    ensures s.row.Some?
  {
    hide Reaches;
    var s0 := Init(content, key);
    s, steps := Stow(content, key);
    s, steps := Go(s0, steps, s, ReadPending(s.row.value.receivedAt + 1));
    s, steps := PutAndLook(s0, steps, s);
  }

  /** The worker reads a row that has waited too long; the take lands, is confirmed and let go of; then the
      worker commits that it has given up. The only copy is in the spool, under a row that names nothing, so
      no pass will ever take it to the archive. */
  lemma GiveUpAcrossConfirmStrandsTheTake(content: Content, key: nat) returns (s: State, steps: seq<Step>)
    ensures Reaches(Init(content, key), steps, s)
    ensures s.rig.letGo && s.work == Resting && s.stores.spool == Some(content) && s.stores.archive == None
    ensures s.row.Some? && s.row.value.state == Missing && s.row.value.key == None
    ensures !WorkCan(s, ReadOnPrem) && !WorkCan(s, ReadArchived)
  {
    hide Reaches;
    var s0 := Init(content, key);
    s, steps := WaitedTooLong(content, key);
    s, steps := Record(s0, steps, s);
    s, steps := Forget(s0, steps, s);
    s, steps := Go(s0, steps, s, CommitMissing);
  }

  /** A confirm outlives its caller: the uploader gives up after the service has looked, and the row is recorded
      all the same, with both files still on the rig for the next try. */
  lemma ConfirmOutlivesItsCaller(content: Content, key: nat) returns (s: State, steps: seq<Step>)
    ensures Reaches(Init(content, key), steps, s)
    ensures s.rig.meta && s.rig.bin && !s.rig.letGo && s.calls.shell == Idle && !s.calls.orphan
    ensures SameTake(content, s.row) && s.row.value.state == OnPrem && s.stores.spool == Some(content)
  {
    hide Reaches;
    var s0 := Init(content, key);
    s, steps := Stow(content, key);
    s, steps := PutAndLook(s0, steps, s);
    s, steps := Go(s0, steps, s, GiveUp(Shell));
    s, steps := Go(s0, steps, s, CommitOrphan(0));
  }

  /** Archived and released from the spool. */
  lemma Released(content: Content, key: nat) returns (s: State, steps: seq<Step>)
    ensures Reaches(Init(content, key), steps, s) && s.rig.letGo && s.work == Resting && s.content == content
    ensures s.stores == Stores(None, Some(content), false, false)
    ensures s.row == Some(Row(Archived, Some(key), Some(|content|), Some(Digest(content)), 0, 0, 0, Some(7)))
  {
    hide Reaches;
    var s0 := Init(content, key);
    s, steps := Stow(content, key);
    s, steps := PutAndLook(s0, steps, s);
    s, steps := Record(s0, steps, s);
    s, steps := Forget(s0, steps, s);
    s, steps := CopyOver(s0, steps, s);
    s, steps := AboutToRelease(s0, steps, s);
    s, steps := Go(s0, steps, s, DeleteSpool);
    s, steps := Go(s0, steps, s, CommitFreed(7));
  }

  /** The whole life of a take: let go, archived, released, and in the end deleted by retention, with its size
      and digest still on the row. */
  lemma RetentionEndsIt(content: Content, key: nat) returns (s: State, steps: seq<Step>)
    ensures Reaches(Init(content, key), steps, s)
    ensures s.stores.spool == None && s.stores.archive == None && s.work == Resting
    ensures SameTake(content, s.row) && s.row.value.state == Expired && s.row.value.freedAt == Some(7)
  {
    hide Reaches;
    var s0 := Init(content, key);
    s, steps := Released(content, key);
    s, steps := Go(s0, steps, s, ReadOld(1));
    s, steps := Go(s0, steps, s, DeleteArchive);
    s, steps := Go(s0, steps, s, CommitExpired);
  }
}
