/** One camera's video of one take, as the service's table and its two stores know it. */
module VideoRows {
  import opened Options

  type Content = seq<int>

  // SHA-256 is taken to be injective: a digest stands for exactly one content.
  datatype Digest = Digest(of: Content)

  // What a store says it holds; a store that computed no checksum reports none.
  datatype Stored = Stored(bytes: nat, sha256: Option<Digest>)

  datatype VideoState = Pending | OnPrem | Archived | Expired | Missing

  datatype Row = Row(state: VideoState, key: Option<nat>, bytes: Option<nat>, sha256: Option<Digest>,
                     receivedAt: int, storedAt: int, archivedAt: int, freedAt: Option<int>)

  function Asked(receivedAt: int): Row {
    Row(Pending, None, None, None, receivedAt, 0, 0, None)
  }

  /** Asking a store what it holds. */
  function Head(held: Option<Content>, told: bool): Option<Stored> {
    match held
    case None => None
    case Some(c) => Some(Stored(|c|, if told then Some(Digest(c)) else None))
  }

  datatype Verdict = Fine | NothingThere | WrongSize | NoChecksum | WrongChecksum

  /** The confirm step's decision, in the order its tests are made. */
  function Judge(landed: Option<Stored>, bytes: nat, sha256: Digest): Verdict {
    if landed == None then NothingThere
    else if landed.value.bytes != bytes then WrongSize
    else if landed.value.sha256 == None then NoChecksum
    else if landed.value.sha256.value != sha256 then WrongChecksum
    else Fine
  }

  /** The archive holds the take this row describes. A row with no size or digest is not held to one. */
  predicate ArchiveMatches(row: Row, landed: Option<Stored>) {
    && landed.Some?
    && (row.bytes.Some? ==> landed.value.bytes == row.bytes.value)
    && (row.sha256.Some? ==> landed.value.sha256 == row.sha256)
  }

  /** A yes is given exactly for the bytes the rig has, and only when the store can say so itself. */
  lemma FineIffTheSame(held: Option<Content>, told: bool, content: Content)
    ensures Judge(Head(held, told), |content|, Digest(content)) == Fine <==> held == Some(content) && told
  {
  }

  /** And a refusal says why: the first of these that is so. */
  lemma RefusalSaysWhy(held: Option<Content>, told: bool, content: Content)
    ensures match Judge(Head(held, told), |content|, Digest(content))
            case Fine => held == Some(content) && told
            case NothingThere => held == None
            case WrongSize => held.Some? && |held.value| != |content|
            case NoChecksum => held.Some? && |held.value| == |content| && !told
            case WrongChecksum => held.Some? && |held.value| == |content| && told && held.value != content
  {
  }

  /** A row that was confirmed is matched by exactly one content. */
  lemma MatchIffTheSame(row: Row, held: Option<Content>, told: bool, content: Content)
    requires row.bytes == Some(|content|) && row.sha256 == Some(Digest(content))
    ensures ArchiveMatches(row, Head(held, told)) <==> held == Some(content) && told
  {
  }

  /** The columns a confirm writes. */
  function Confirmed(row: Row, key: nat, content: Content, now: int): Row {
    row.(state := OnPrem, key := Some(key), bytes := Some(|content|), sha256 := Some(Digest(content)), storedAt := now)
  }
}
