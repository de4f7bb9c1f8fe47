/** What the desk's board makes of a group's payloads, which name rigs and not people: the person standing
    off, the kind of rest, and the rig that claims them next. */
module DeskBoard {
  import opened Arithmetic
  import opened FloorTurns
  import opened HolderRuns
  import opened OffTime
  import opened Options
  import opened Plans
  import opened RigPayloads
  import HoldRotation

  // One turn as the board walks over them: the rig it is on, and the turn.
  datatype Call = Call(rigId: string, turn: Turn)

  datatype Off = Off(name: string, kind: Option<GoesTo>, backTo: Option<string>, backAt: Option<string>,
                     backRel: Option<int>)

  /** A minute of the day, counted from the shift's start. */
  function RelOf(startMin: nat, m: int): (rel: int)
    ensures 0 <= rel < DAY
  {
    (m - startMin + DAY) % DAY
  }

  /** And back: the minute of the day. */
  function Absolute(startMin: nat, rel: nat): int {
    (startMin + rel) % DAY
  }

  function CallsOf(p: Payload): seq<Call> {
    seq(|p.turns|, k requires 0 <= k < |p.turns| => Call(p.rigId, p.turns[k]))
  }

  /** Every turn of the group, rig by rig. */
  function Calls(rigs: seq<Payload>): seq<Call> {
    if rigs == [] then [] else Calls(rigs[..|rigs| - 1]) + CallsOf(rigs[|rigs| - 1])
  }

  ghost predicate AllReadable(rigs: seq<Payload>) {
    forall k :: 0 <= k < |rigs| ==> Readable(rigs[k].turns)
  }

  ghost predicate CallsReadable(calls: seq<Call>) {
    forall i :: 0 <= i < |calls| ==> |calls[i].turn.from| == 5 && |calls[i].turn.to| == 5
  }

  predicate Named(t: Turn, name: string) {
    name != "" && t.operator.name == Some(name)
  }

  ghost predicate Called(calls: seq<Call>, name: string) {
    exists i :: 0 <= i < |calls| && Named(calls[i].turn, name)
  }

  ghost predicate OnRigNow(p: Payload, at: real, name: string)
    requires Readable(p.turns)
  {
    WhoIsOn(p, at).Some? && Named(WhoIsOn(p, at).value.turn, name)
  }

  ghost predicate OnNow(rigs: seq<Payload>, at: real, name: string)
    requires AllReadable(rigs)
  {
    exists k :: 0 <= k < |rigs| && OnRigNow(rigs[k], at, name)
  }

  // --------------------------------------------- what the board looks for

  function StartRel(c: Call, startMin: nat): int
    requires |c.turn.from| == 5
  {
    RelOf(startMin, ToMin(c.turn.from))
  }

  function EndRel(c: Call, startMin: nat): int
    requires |c.turn.to| == 5
  {
    RelOf(startMin, ToMin(c.turn.to))
  }

  predicate StillToCome(c: Call, name: string, startMin: nat, atRel: int)
    requires |c.turn.from| == 5
  {
    c.turn.operator.name == Some(name) && StartRel(c, startMin) > atRel
  }

  predicate EndedInRest(c: Call, name: string, startMin: nat, atRel: int)
    requires |c.turn.to| == 5
  {
    c.turn.operator.name == Some(name) && (c.turn.theyGoTo == ToBreak || c.turn.theyGoTo == ToThink)
    && EndRel(c, startMin) <= atRel
  }

  /** Call i is the first of the soonest still to come. */
  ghost predicate IsSoonest(calls: seq<Call>, i: int, name: string, startMin: nat, atRel: int)
    requires CallsReadable(calls)
  {
    && 0 <= i < |calls| && StillToCome(calls[i], name, startMin, atRel)
    && forall k :: 0 <= k < |calls| && StillToCome(calls[k], name, startMin, atRel) ==>
         StartRel(calls[k], startMin) >= StartRel(calls[i], startMin)
         && (k < i ==> StartRel(calls[k], startMin) > StartRel(calls[i], startMin))
  }

  /** Call i is the first of the latest that ended in a rest. */
  ghost predicate IsLatest(calls: seq<Call>, i: int, name: string, startMin: nat, atRel: int)
    requires CallsReadable(calls)
  {
    && 0 <= i < |calls| && EndedInRest(calls[i], name, startMin, atRel)
    && forall k :: 0 <= k < |calls| && EndedInRest(calls[k], name, startMin, atRel) ==>
         EndRel(calls[k], startMin) <= EndRel(calls[i], startMin)
         && (k < i ==> EndRel(calls[k], startMin) < EndRel(calls[i], startMin))
  }

  ghost predicate BackIs(calls: seq<Call>, name: string, startMin: nat, atRel: int, off: Off)
    requires CallsReadable(calls)
  {
    match off.backRel
    case None =>
      off.backTo == None && off.backAt == None
      && forall i :: 0 <= i < |calls| ==> !StillToCome(calls[i], name, startMin, atRel)
    case Some(rel) =>
      exists i ::
        && IsSoonest(calls, i, name, startMin, atRel) && rel == StartRel(calls[i], startMin)
        && off.backTo == Some(calls[i].rigId) && off.backAt == Some(calls[i].turn.from)
  }

  ghost predicate KindIs(calls: seq<Call>, name: string, startMin: nat, atRel: int, kind: Option<GoesTo>, endedRel: int)
    requires CallsReadable(calls)
  {
    match kind
    case None =>
      endedRel == -1 && forall i :: 0 <= i < |calls| ==> !EndedInRest(calls[i], name, startMin, atRel)
    case Some(k) =>
      exists i ::
        && IsLatest(calls, i, name, startMin, atRel) && endedRel == EndRel(calls[i], startMin)
        && k == calls[i].turn.theyGoTo
  }

  lemma CallsAreReadable(rigs: seq<Payload>)
    requires AllReadable(rigs)
    ensures CallsReadable(Calls(rigs))
  {
    if rigs != [] {
      CallsAreReadable(rigs[..|rigs| - 1]);
      assert Readable(rigs[|rigs| - 1].turns);
    }
  }

  lemma CallsGrow(rigs: seq<Payload>, k: nat)
    requires k < |rigs|
    ensures Calls(rigs[..k + 1]) == Calls(rigs[..k]) + CallsOf(rigs[k])
  {
    assert rigs[..k + 1][..k] == rigs[..k];
  }

  // ------------------------------------------------------------ the loops

  /** Every name the group's turns mention, in the order they first do. */
  method AllNames(rigs: seq<Payload>) returns (all: seq<string>)
    ensures forall name :: name in all <==> Called(Calls(rigs), name)
    ensures forall i, j :: 0 <= i < j < |all| ==> all[i] != all[j]
  {
    all := [];
    for k := 0 to |rigs|
      invariant forall name :: name in all <==> Called(Calls(rigs[..k]), name)
      invariant forall i, j :: 0 <= i < j < |all| ==> all[i] != all[j]
    {
      CallsGrow(rigs, k);
      ghost var before := Calls(rigs[..k]);
      var mine := CallsOf(rigs[k]);
      assert before + mine[..0] == before;
      for i := 0 to |mine|
        invariant forall name :: name in all <==> Called(before + mine[..i], name)
        invariant forall i, j :: 0 <= i < j < |all| ==> all[i] != all[j]
      {
        assert before + mine[..i + 1] == (before + mine[..i]) + [mine[i]];
        OneMoreCalled(before + mine[..i], mine[i]);
        var name := mine[i].turn.operator.name;
        if name.Some? && name.value != "" && name.value !in all {
          all := all + [name.value];
        }
      }
      assert before + mine[..|mine|] == Calls(rigs[..k + 1]);
    }
    assert rigs[..|rigs|] == rigs;
  }

  lemma OneMoreCalled(calls: seq<Call>, c: Call)
    ensures forall name :: Called(calls + [c], name) <==> Called(calls, name) || Named(c.turn, name)
  {
    forall name ensures Called(calls + [c], name) <==> Called(calls, name) || Named(c.turn, name) {
      if Called(calls, name) {
        var i :| 0 <= i < |calls| && Named(calls[i].turn, name);
        assert (calls + [c])[i] == calls[i];
      }
      assert (calls + [c])[|calls|] == c;
    }
  }

  method NamesOn(rigs: seq<Payload>, at: real) returns (on: set<string>)
    requires AllReadable(rigs)
    ensures forall name :: name in on <==> OnNow(rigs, at, name)
  {
    on := {};
    for k := 0 to |rigs|
      invariant forall name :: name in on <==> exists i :: 0 <= i < k && OnRigNow(rigs[i], at, name)
    {
      var w := WhoIsOn(rigs[k], at);
      if w.Some? {
        var name := w.value.turn.operator.name;
        if name.Some? && name.value != "" {
          on := on + {name.value};
          assert OnRigNow(rigs[k], at, name.value);
        }
      }
    }
  }

  ghost predicate IsOff(rigs: seq<Payload>, startMin: nat, atRel: nat, name: string)
    requires AllReadable(rigs)
  {
    Called(Calls(rigs), name) && !OnNow(rigs, Absolute(startMin, atRel) as real, name)
  }

  lemma LatestGrows(calls: seq<Call>, c: Call, name: string, startMin: nat, atRel: int,
                    kind: Option<GoesTo>, endedRel: int)
    requires CallsReadable(calls) && |c.turn.from| == 5 && |c.turn.to| == 5
    requires KindIs(calls, name, startMin, atRel, kind, endedRel)
    ensures CallsReadable(calls + [c])
    ensures if EndedInRest(c, name, startMin, atRel) && EndRel(c, startMin) > endedRel
            then KindIs(calls + [c], name, startMin, atRel, Some(c.turn.theyGoTo), EndRel(c, startMin))
            else KindIs(calls + [c], name, startMin, atRel, kind, endedRel)
  {
    hide RelOf, ToMin;
    var more := calls + [c];
    assert more[|calls|] == c && forall k :: 0 <= k < |calls| ==> more[k] == calls[k];
    if EndedInRest(c, name, startMin, atRel) && EndRel(c, startMin) > endedRel {
      assert IsLatest(more, |calls|, name, startMin, atRel);
    } else if kind.Some? {
      var i :| IsLatest(calls, i, name, startMin, atRel)
        && kind.value == calls[i].turn.theyGoTo && endedRel == EndRel(calls[i], startMin);
      assert IsLatest(more, i, name, startMin, atRel);
    }
  }

  lemma SoonestGrows(calls: seq<Call>, c: Call, name: string, startMin: nat, atRel: int, off: Off)
    requires CallsReadable(calls) && |c.turn.from| == 5 && |c.turn.to| == 5
    requires BackIs(calls, name, startMin, atRel, off)
    ensures CallsReadable(calls + [c])
    ensures if StillToCome(c, name, startMin, atRel)
               && (off.backRel == None || StartRel(c, startMin) < off.backRel.value)
            then BackIs(calls + [c], name, startMin, atRel,
                        off.(backTo := Some(c.rigId), backAt := Some(c.turn.from),
                             backRel := Some(StartRel(c, startMin))))
            else BackIs(calls + [c], name, startMin, atRel, off)
  {
    hide RelOf, ToMin;
    var more := calls + [c];
    assert more[|calls|] == c && forall k :: 0 <= k < |calls| ==> more[k] == calls[k];
    if StillToCome(c, name, startMin, atRel) && (off.backRel == None || StartRel(c, startMin) < off.backRel.value) {
      assert IsSoonest(more, |calls|, name, startMin, atRel);
    } else if off.backRel.Some? {
      var i :| IsSoonest(calls, i, name, startMin, atRel) && off.backTo == Some(calls[i].rigId)
        && off.backAt == Some(calls[i].turn.from) && off.backRel.value == StartRel(calls[i], startMin);
      assert IsSoonest(more, i, name, startMin, atRel);
    }
  }

  /** One pass over every turn of one operator: the latest that ended in a rest, the soonest to come. */
  method LookAround(rigs: seq<Payload>, startMin: nat, atRel: nat, name: string) returns (off: Off)
    requires AllReadable(rigs)
    ensures CallsReadable(Calls(rigs)) && off.name == name
    ensures exists endedRel :: KindIs(Calls(rigs), name, startMin, atRel, off.kind, endedRel)
    ensures BackIs(Calls(rigs), name, startMin, atRel, off)
  {
    hide KindIs, BackIs, RelOf, ToMin, CallsReadable;
    off := Off(name, None, None, None, None);
    var endedRel := -1;
    NothingSeen(name, startMin, atRel, off);
    for k := 0 to |rigs|
      invariant CallsReadable(Calls(rigs[..k])) && off.name == name
      invariant KindIs(Calls(rigs[..k]), name, startMin, atRel, off.kind, endedRel)
      invariant BackIs(Calls(rigs[..k]), name, startMin, atRel, off)
    {
      CallsGrow(rigs, k);
      assert Readable(rigs[k].turns);
      ghost var before := Calls(rigs[..k]);
      var mine := CallsOf(rigs[k]);
      assert before + mine[..0] == before;
      for i := 0 to |mine|
        invariant CallsReadable(before + mine[..i]) && off.name == name
        invariant KindIs(before + mine[..i], name, startMin, atRel, off.kind, endedRel)
        invariant BackIs(before + mine[..i], name, startMin, atRel, off)
      {
        var c := mine[i];
        assert before + mine[..i + 1] == (before + mine[..i]) + [c];
        LatestGrows(before + mine[..i], c, name, startMin, atRel, off.kind, endedRel);
        SoonestGrows(before + mine[..i], c, name, startMin, atRel, off);
        if c.turn.operator.name == Some(name) {
          var startRel, endRel := StartRel(c, startMin), EndRel(c, startMin);
          if (c.turn.theyGoTo == ToBreak || c.turn.theyGoTo == ToThink) && endRel <= atRel && endRel > endedRel {
            endedRel := endRel;
            off := off.(kind := Some(c.turn.theyGoTo));
          }
          if startRel > atRel && (off.backRel == None || startRel < off.backRel.value) {
            off := off.(backRel := Some(startRel), backTo := Some(c.rigId), backAt := Some(c.turn.from));
          }
        }
        assert BackIs(before + mine[..i + 1], name, startMin, atRel, off) by {
          KindDoesNotMatter(before + mine[..i + 1], name, startMin, atRel, off);
        }
      }
      assert before + mine[..|mine|] == Calls(rigs[..k + 1]);
    }
    assert rigs[..|rigs|] == rigs;
  }

  lemma KindDoesNotMatter(calls: seq<Call>, name: string, startMin: nat, atRel: int, off: Off)
    requires CallsReadable(calls)
    ensures forall other: Option<GoesTo> ::
              BackIs(calls, name, startMin, atRel, off.(kind := other)) <==> BackIs(calls, name, startMin, atRel, off)
  {
  }

  lemma NothingSeen(name: string, startMin: nat, atRel: int, off: Off)
    requires off.backRel == None && off.backTo == None && off.backAt == None
    ensures CallsReadable([]) && KindIs([], name, startMin, atRel, None, -1) && BackIs([], name, startMin, atRel, off)
  {
  }

  /** The board's answer: somebody off, what for, and where next; or that nobody is. */
  ghost predicate Answers(rigs: seq<Payload>, startMin: nat, atRel: nat, off: Option<Off>)
    requires AllReadable(rigs) && CallsReadable(Calls(rigs))
  {
    match off
    case None => forall name :: !IsOff(rigs, startMin, atRel, name)
    case Some(o) =>
      && IsOff(rigs, startMin, atRel, o.name)
      && (exists endedRel :: KindIs(Calls(rigs), o.name, startMin, atRel, o.kind, endedRel))
      && BackIs(Calls(rigs), o.name, startMin, atRel, o)
  }

  /** Any answer it gives is one the group's turns bear out, and none means nobody fits. */
  method OffNow(rigs: seq<Payload>, startMin: nat, atRel: nat) returns (off: Option<Off>)
    requires AllReadable(rigs)
    ensures CallsReadable(Calls(rigs)) && Answers(rigs, startMin, atRel, off)
  {
    hide KindIs, BackIs, OnNow;
    CallsAreReadable(rigs);
    var all := AllNames(rigs);
    var on := NamesOn(rigs, Absolute(startMin, atRel) as real);
    for i := 0 to |all|
      invariant forall k :: 0 <= k < i ==> all[k] in on
    {
      if all[i] !in on {
        assert all[i] in all;
        assert IsOff(rigs, startMin, atRel, all[i]);
        var found := LookAround(rigs, startMin, atRel, all[i]);
        return Some(found);
      }
    }
    off := None;
  }
}
