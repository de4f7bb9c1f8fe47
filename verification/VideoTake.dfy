/** One camera's video of one take, from the rig's disk to the archive, with every store operation and
    every commit a step of its own, two uploaders on the rig, and a crash possible between any two. */
module VideoTake {
  import opened Options
  import opened VideoRows

  datatype Put = NotYet | BytesOnly | Stowed | Lost

  // The page's own copy and the pair of files on the disk. `raced`: a sweep ran between the two writes.
  datatype Rig = Rig(memory: bool, bin: bool, meta: bool, put: Put, letGo: bool, raced: bool)

  datatype Who = Page | Shell

  datatype Upload = Idle | Told | Sent | Vouched | Recorded | Released

  // `orphan`: a confirm whose caller has gone may yet commit.
  datatype Calls = Calls(page: Upload, shell: Upload, orphan: bool)

  // `clobbered`: other bytes landed after a confirm had looked; `expired`: retention reached the archive.
  datatype Stores = Stores(spool: Option<Content>, archive: Option<Content>, clobbered: bool, expired: bool)

  // What the one drain worker is in the middle of, with the row as it read it.
  datatype Work =
    | Resting
    | Draining(row: Row)
    | Copying(row: Row)
    | Archiving
    | Releasing(row: Row)
    | Deleting
    | Freeing
    | Expiring
    | Burying
    | GivingUp

  datatype State = State(content: Content, key: nat, rig: Rig, calls: Calls, stores: Stores, row: Option<Row>,
                         work: Work)

  datatype Step =
    // The rig.
    | TakeSaved | WriteBytes | WriteMeta | Sweep | ForgetUnread
    | PageDies | ShellDies | PowerCut
    // Uploading.
    | Ask(who: Who, now: int) | PutBytes(who: Who, c: Content) | LateBytes(c: Content)
    | HeadConfirms(who: Who, told: bool) | CommitConfirm(who: Who, now: int) | CommitOrphan(now: int)
    | Yes(who: Who) | GiveUp(who: Who) | LetGo(who: Who) | DropBytes
    // The worker.
    | ReadOnPrem | CopySome(c: Content) | HeadCopy(told: bool) | CommitArchived(now: int)
    | ReadArchived | HeadRelease(told: bool) | DeleteSpool | CommitFreed(now: int)
    | ReadOld(cutoff: int) | DeleteArchive | CommitExpired
    | ReadPending(cutoff: int) | CommitMissing
    | WorkerDies

  function Init(content: Content, key: nat): State {
    State(content, key, Rig(false, false, false, NotYet, false, false), Calls(Idle, Idle, false),
          Stores(None, None, false, false), None, Resting)
  }

  function Phase(calls: Calls, who: Who): Upload {
    if who == Page then calls.page else calls.shell
  }

  function At(calls: Calls, who: Who, u: Upload): Calls {
    if who == Page then calls.(page := u) else calls.(shell := u)
  }

  /** An upload ends unanswered; if the service had already looked, it may yet commit. */
  function Stopped(calls: Calls, who: Who): Calls {
    At(calls, who, Idle).(orphan := calls.orphan || Phase(calls, who) == Vouched)
  }

  /** The service has looked at the bytes and is saying, or has said, that the rig may let go. */
  predicate Spoken(u: Upload) {
    u == Vouched || u == Recorded || u == Released
  }

  predicate Relied(letGo: bool, calls: Calls) {
    letGo || Spoken(calls.page) || Spoken(calls.shell)
  }

  // ------------------------------------------------------------- the steps

  predicate RigCan(s: State, step: Step) {
    match step
    case TakeSaved => s.rig.put == NotYet && !s.rig.memory && !s.rig.letGo
    case WriteBytes => s.rig.put == NotYet && s.rig.memory
    case WriteMeta => s.rig.put == BytesOnly
    case ForgetUnread => s.calls.shell == Idle && s.rig.meta && !s.rig.bin
    case LetGo(who) => Phase(s.calls, who) == Released && s.rig.put != BytesOnly
    case DropBytes => !s.rig.meta && s.rig.letGo
    case _ => true
  }

  function RigAfter(r: Rig, step: Step): Rig {
    match step
    case TakeSaved => r.(memory := true)
    case WriteBytes => r.(bin := true, put := BytesOnly)
    case WriteMeta => r.(meta := true, put := Stowed)
    case Sweep => r.(bin := r.bin && r.meta, raced := r.raced || r.put == BytesOnly)
    case ForgetUnread => r.(meta := false)
    case PageDies => PageGone(r)
    case PowerCut => PageGone(r)
    case LetGo(who) => r.(meta := false, memory := r.memory && who == Shell, letGo := true)
    case DropBytes => r.(bin := false)
    case _ => r
  }

  function PageGone(r: Rig): Rig {
    r.(memory := false, put := if r.put == Stowed then Stowed else Lost)
  }

  predicate CallsCan(s: State, step: Step) {
    match step
    case Ask(who, _) => Phase(s.calls, who) == Idle && if who == Page then s.rig.memory else s.rig.meta && s.rig.bin
    case PutBytes(who, _) => Phase(s.calls, who) == Told
    case LateBytes(_) => s.row.Some?
    case HeadConfirms(who, told) =>
      Phase(s.calls, who) == Sent && Judge(Head(s.stores.spool, told), |s.content|, Digest(s.content)) == Fine
    case CommitConfirm(who, _) => Phase(s.calls, who) == Vouched
    case CommitOrphan(_) => s.calls.orphan
    case Yes(who) => Phase(s.calls, who) == Recorded
    case _ => true
  }

  function CallsAfter(c: Calls, step: Step): Calls {
    match step
    case Ask(who, _) => At(c, who, Told)
    case PutBytes(who, _) => At(c, who, Sent)
    case HeadConfirms(who, _) => At(c, who, Vouched)
    case CommitConfirm(who, _) => At(c, who, Recorded)
    case CommitOrphan(_) => c.(orphan := false)
    case Yes(who) => At(c, who, Released)
    case GiveUp(who) => Stopped(c, who)
    case LetGo(who) => At(c, who, Idle)
    case PageDies => Stopped(c, Page)
    case ShellDies => Stopped(c, Shell)
    case PowerCut => Stopped(Stopped(c, Page), Shell)
    case _ => c
  }

  predicate WorkCan(s: State, step: Step) {
    match step
    case ReadOnPrem => s.work == Resting && s.row.Some? && s.row.value.state == OnPrem && s.row.value.key.Some?
    case CopySome(_) => (s.work.Draining? || s.work.Copying?) && s.stores.spool.Some?
    case HeadCopy(_) => s.work.Copying?
    case CommitArchived(_) => s.work == Archiving
    case ReadArchived =>
      s.work == Resting && s.row.Some? && s.row.value.state == Archived && s.row.value.freedAt == None
      && s.row.value.key.Some?
    case HeadRelease(_) => s.work.Releasing?
    case DeleteSpool => s.work == Deleting
    case CommitFreed(_) => s.work == Freeing
    case ReadOld(cutoff) =>
      s.work == Resting && s.row.Some? && s.row.value.state == Archived && s.row.value.freedAt.Some?
      && s.row.value.archivedAt < cutoff
    case DeleteArchive => s.work == Expiring
    case CommitExpired => s.work == Burying
    case ReadPending(cutoff) =>
      s.work == Resting && s.row.Some? && s.row.value.state == Pending && s.row.value.receivedAt < cutoff
    case CommitMissing => s.work == GivingUp
    case _ => true
  }

  function WorkAfter(s: State, step: Step): Work
    requires WorkCan(s, step)
  {
    match step
    case ReadOnPrem => Draining(s.row.value)
    case CopySome(_) => Copying(s.work.row)
    case HeadCopy(told) => if ArchiveMatches(s.work.row, Head(s.stores.archive, told)) then Archiving else Resting
    case ReadArchived => Releasing(s.row.value)
    case HeadRelease(told) => if ArchiveMatches(s.work.row, Head(s.stores.archive, told)) then Deleting else Resting
    case DeleteSpool => Freeing
    case ReadOld(_) => Expiring
    case DeleteArchive => Burying
    case ReadPending(_) => GivingUp
    case CommitArchived(_) => Resting
    case CommitFreed(_) => Resting
    case CommitExpired => Resting
    case CommitMissing => Resting
    case WorkerDies => Resting
    case _ => s.work
  }

  /** Bytes reach the spool, whole or not. */
  function Landed(st: Stores, c: Content, content: Content, relied: bool): Stores {
    st.(spool := Some(c), clobbered := st.clobbered || (c != content && relied))
  }

  function StoresAfter(s: State, step: Step): Stores {
    match step
    case PutBytes(_, c) => Landed(s.stores, c, s.content, Relied(s.rig.letGo, s.calls))
    case LateBytes(c) => Landed(s.stores, c, s.content, Relied(s.rig.letGo, s.calls))
    case HeadConfirms(_, _) => s.stores.(clobbered := false, expired := false)
    case CopySome(c) => s.stores.(archive := Some(c))
    case DeleteSpool => s.stores.(spool := None)
    case DeleteArchive => s.stores.(archive := None, expired := true)
    case _ => s.stores
  }

  /** Where an upload should go: a row that is new, or still pending, is told the key. */
  function RowAsked(row: Option<Row>, key: nat, now: int): Row {
    var r := if row.Some? then row.value else Asked(now);
    if r.state == Pending then r.(key := Some(key)) else r
  }

  function RowConfirmed(s: State, now: int): Row {
    Confirmed(if s.row.Some? then s.row.value else Asked(now), s.key, s.content, now)
  }

  /** A commit writes only the columns its pass changed, over whatever the row says by then. */
  function RowAfter(s: State, step: Step): Option<Row> {
    match step
    case Ask(_, now) => Some(RowAsked(s.row, s.key, now))
    case CommitConfirm(_, now) => Some(RowConfirmed(s, now))
    case CommitOrphan(now) => Some(RowConfirmed(s, now))
    case CommitArchived(now) => if s.row.Some? then Some(s.row.value.(state := Archived, archivedAt := now)) else None
    case CommitFreed(now) => if s.row.Some? then Some(s.row.value.(freedAt := Some(now))) else None
    case CommitExpired => if s.row.Some? then Some(s.row.value.(state := Expired)) else None
    case CommitMissing => if s.row.Some? then Some(s.row.value.(state := Missing, key := None)) else None
    case _ => s.row
  }

  predicate Enabled(s: State, step: Step) {
    RigCan(s, step) && CallsCan(s, step) && WorkCan(s, step)
  }

  function Do(s: State, step: Step): State
    requires Enabled(s, step)
  {
    State(s.content, s.key, RigAfter(s.rig, step), CallsAfter(s.calls, step), StoresAfter(s, step), RowAfter(s, step),
          WorkAfter(s, step))
  }

  ghost predicate Reaches(s: State, steps: seq<Step>, t: State)
    decreases |steps|
  {
    if steps == [] then s == t
    else Enabled(s, steps[0]) && Reaches(Do(s, steps[0]), steps[1..], t)
  }

  lemma {:induction false} OneMoreStep(s: State, steps: seq<Step>, t: State, step: Step)
    requires Reaches(s, steps, t) && Enabled(t, step)
    ensures Reaches(s, steps + [step], Do(t, step))
    decreases |steps|
  {
    hide Do, Enabled;
    if steps == [] {
      assert [step][1..] == [];
    } else {
      OneMoreStep(Do(s, steps[0]), steps[1..], t, step);
      assert (steps + [step])[1..] == steps[1..] + [step];
    }
  }

  // -------------------------------------------------------- what runs keep

  ghost predicate SameTake(content: Content, r: Option<Row>) {
    r.Some? && r.value.bytes == Some(|content|) && r.value.sha256 == Some(Digest(content))
  }

  /** Size and digest are written together, by a confirm, and only ever for these bytes. */
  ghost predicate RowOk(content: Content, row: Option<Row>) {
    row.Some? ==>
      && (SameTake(content, row) || (row.value.bytes == None && row.value.sha256 == None))
      && (row.value.state == OnPrem || row.value.state == Archived || row.value.state == Expired ==>
           SameTake(content, row))
  }

  /** Whoever has been told yes, and a worker past its reading, has a confirmed row. */
  ghost predicate ToldOk(s: State) {
    && RowOk(s.content, s.row)
    && (s.rig.letGo || Answered(s.calls.page) || Answered(s.calls.shell) ==> SameTake(s.content, s.row))
    && (s.work != Resting && s.work != GivingUp ==> SameTake(s.content, s.row))
    && (s.work == GivingUp ==> s.row.Some?)
    && (s.work.Draining? || s.work.Copying? || s.work.Releasing? ==> SameTake(s.content, Some(s.work.row)))
  }

  predicate Answered(u: Upload) {
    u == Recorded || u == Released
  }

  /** The spool or the archive holds this take's very bytes. */
  ghost predicate Held(content: Content, st: Stores) {
    st.spool == Some(content) || st.archive == Some(content)
  }

  ghost predicate StoresOk(s: State) {
    && (Relied(s.rig.letGo, s.calls) && !s.stores.expired && !s.stores.clobbered ==>
          Held(s.content, s.stores) && (s.stores.spool.Some? ==> s.stores.spool == Some(s.content)))
    && (s.work.Copying? ==> s.stores.spool.Some?)
    && (s.work == Deleting ==> s.stores.archive == Some(s.content))
  }

  /** Both files are on the rig's disk from the moment the put returns until the rig lets go. */
  ghost predicate RigOk(r: Rig, shell: Upload) {
    && (r.put == Stowed && !r.letGo && !r.raced ==> r.meta && r.bin)
    && (r.put == BytesOnly && !r.raced ==> r.bin)
    && (r.put == BytesOnly ==> !r.letGo) && (r.put == NotYet && r.letGo ==> !r.memory)
    && (r.meta || shell != Idle ==> r.put == Stowed)
  }

  ghost predicate Inv(s: State) {
    ToldOk(s) && StoresOk(s) && RigOk(s.rig, s.calls.shell)
  }

  lemma CallsMove(s: State, step: Step)
    requires Enabled(s, step)
    ensures var t := Do(s, step);
            && (Answered(t.calls.page) || Answered(t.calls.shell) ==>
                  Answered(s.calls.page) || Answered(s.calls.shell) || step.CommitConfirm?)
            && (Relied(t.rig.letGo, t.calls) ==> Relied(s.rig.letGo, s.calls) || step.HeadConfirms?)
            && (t.rig.letGo ==> s.rig.letGo || Answered(s.calls.page) || Answered(s.calls.shell))
  {
    hide Head, Judge, ArchiveMatches, RowAfter, StoresAfter, WorkAfter, WorkCan;
  }

  lemma ToldKept(s: State, step: Step)
    requires ToldOk(s) && Enabled(s, step)
    ensures ToldOk(Do(s, step))
  {
    hide Head, Judge, ArchiveMatches, CallsAfter, StoresAfter, Answered, RigCan, CallsCan, RigAfter;
    CallsMove(s, step);
  }

  lemma StoresKept(s: State, step: Step)
    requires ToldOk(s) && StoresOk(s) && Enabled(s, step)
    ensures StoresOk(Do(s, step))
  {
    hide Head, Judge, ArchiveMatches, CallsAfter, RowAfter, Relied, RigCan, RigAfter, Answered, RowOk;
    CallsMove(s, step);
    if step.HeadConfirms? {
      FineIffTheSame(s.stores.spool, step.told, s.content);
    }
    if step.HeadRelease? {
      MatchIffTheSame(s.work.row, s.stores.archive, step.told, s.content);
    }
  }

  lemma RigKept(s: State, step: Step)
    requires RigOk(s.rig, s.calls.shell) && Enabled(s, step)
    ensures RigOk(Do(s, step).rig, Do(s, step).calls.shell)
  {
    hide Head, Judge, ArchiveMatches, RowAfter, StoresAfter, WorkAfter, WorkCan;
  }

  lemma {:induction false} RunKeeps(s: State, steps: seq<Step>, t: State)
    requires Inv(s) && Reaches(s, steps, t)
    ensures Inv(t) && t.content == s.content
    decreases |steps|
  {
    hide ToldOk, StoresOk, RigOk, Enabled, RigAfter, CallsAfter, StoresAfter, RowAfter, WorkAfter;
    if steps != [] {
      ToldKept(s, steps[0]);
      StoresKept(s, steps[0]);
      RigKept(s, steps[0]);
      RunKeeps(Do(s, steps[0]), steps[1..], t);
    }
  }
}
