/** The participant roster: an insertion-ordered sequence of participant
    records keyed by session id, and the operations the room view model
    applies to it. ParticipantManager.kt is not part of this model, so the
    behaviour of these operations is a modelling choice: records are keyed by
    sid, every targeted update is a no-op for an unknown sid, and the pinned
    and dominant-speaker marks are exclusive. */
module Roster {
  import opened RoomTypes

  type Records = seq<ParticipantViewState>

  /** A change to the record of one participant. */
  datatype Change =
    | SetVideoTrack(videoTrack: Option<VideoTrackViewState>)
    | SetScreenTrack(screenTrack: Option<VideoTrackViewState>)
    | SetMuted(muted: bool)
    | SetNetworkQuality(level: NetworkQualityLevel)
    | ReplaceWith(view: ParticipantViewState)

  /** The roster operations the view model uses. */
  datatype RosterOp =
    | AddParticipant(view: ParticipantViewState)
    | RemoveParticipant(sid: Sid)
    | UpdateParticipant(sid: Sid, change: Change)
    | ChangePinnedParticipant(sid: Sid)
    | ChangeDominantSpeaker(dominant: Option<Sid>)
    | ClearParticipants

  /** The session ids of the roster, in insertion order. */
  function Sids(r: Records): seq<Sid>
  {
    seq(|r|, i requires 0 <= i < |r| => r[i].sid)
  }

  /** The roster is keyed by sid: no two records share one. */
  predicate UniqueSids(r: Records)
  {
    forall i, j :: 0 <= i < j < |r| ==> r[i].sid != r[j].sid
  }

  predicate AtMostOneDominant(r: Records)
  {
    forall i, j :: 0 <= i < j < |r| && r[i].isDominantSpeaker ==> !r[j].isDominantSpeaker
  }

  predicate AtMostOnePinned(r: Records)
  {
    forall i, j :: 0 <= i < j < |r| && r[i].isPinned ==> !r[j].isPinned
  }

  /** The roster seen as a mapping from sid to record (the first record of a sid wins). */
  ghost function AsMap(r: Records): map<Sid, ParticipantViewState>
  {
    if r == [] then map[] else AsMap(r[1..])[r[0].sid := r[0]]
  }

  /** A change sets exactly its own field of the record to the given value;
      a replacement takes every field of the new record except the sid. */
  function ApplyChange(p: ParticipantViewState, c: Change): (q: ParticipantViewState)
    ensures q.sid == p.sid
    ensures c.SetVideoTrack? ==> q.videoTrack == c.videoTrack && q.(videoTrack := p.videoTrack) == p
    ensures c.SetScreenTrack? ==> q.screenTrack == c.screenTrack && q.(screenTrack := p.screenTrack) == p
    ensures c.SetMuted? ==> q.isMuted == c.muted && q.(isMuted := p.isMuted) == p
    ensures c.SetNetworkQuality? ==> q.networkQualityLevel == c.level &&
                                     q.(networkQualityLevel := p.networkQualityLevel) == p
    ensures c.ReplaceWith? ==> q.(sid := c.view.sid) == c.view
  {
    match c
    case SetVideoTrack(t) => p.(videoTrack := t)
    case SetScreenTrack(t) => p.(screenTrack := t)
    case SetMuted(m) => p.(isMuted := m)
    case SetNetworkQuality(l) => p.(networkQualityLevel := l)
    case ReplaceWith(v) => v.(sid := p.sid)
  }

  /** Applies `c` to the record keyed by `sid`, leaving every other record alone. */
  function Modify(r: Records, sid: Sid, c: Change): (r': Records)
    ensures Sids(r') == Sids(r)
  {
    seq(|r|, i requires 0 <= i < |r| => if r[i].sid == sid then ApplyChange(r[i], c) else r[i])
  }

  /** Drops the record keyed by `sid`. */
  function Remove(r: Records, sid: Sid): (r': Records)
    ensures forall p :: p in r' <==> p in r && p.sid != sid
    ensures sid !in Sids(r')
    ensures UniqueSids(r) ==> UniqueSids(r')
  {
    if r == [] then []
    else if r[0].sid == sid then Remove(r[1..], sid)
    else
      var rest := Remove(r[1..], sid);
      assert forall p :: p in rest ==> p in r[1..];
      [r[0]] + rest
  }

  /** Marks `sid` as pinned and every other participant as not pinned. */
  function MarkPinned(r: Records, sid: Sid): (r': Records)
    ensures Sids(r') == Sids(r)
    ensures forall i :: 0 <= i < |r| ==> r'[i].(isPinned := r[i].isPinned) == r[i]
  {
    seq(|r|, i requires 0 <= i < |r| => r[i].(isPinned := r[i].sid == sid))
  }

  /** Marks `dominant` (if any) as dominant speaker and clears the mark elsewhere. */
  function MarkDominant(r: Records, dominant: Option<Sid>): (r': Records)
    ensures Sids(r') == Sids(r)
    ensures forall i :: 0 <= i < |r| ==> r'[i].(isDominantSpeaker := r[i].isDominantSpeaker) == r[i]
  {
    seq(|r|, i requires 0 <= i < |r| => r[i].(isDominantSpeaker := Some(r[i].sid) == dominant))
  }

  /** One roster operation. Adding a record whose sid is already present
      replaces that record in place. */
  function Apply(r: Records, op: RosterOp): (r': Records)
    ensures UniqueSids(r) ==> UniqueSids(r')
  {
    match op
    case AddParticipant(v) =>
      if v.sid in Sids(r) then Modify(r, v.sid, ReplaceWith(v))
      else
        assert forall i :: 0 <= i < |r| ==> Sids(r)[i] == r[i].sid;
        r + [v]
    case RemoveParticipant(sid) => Remove(r, sid)
    case UpdateParticipant(sid, c) => Modify(r, sid, c)
    case ChangePinnedParticipant(sid) => if sid in Sids(r) then MarkPinned(r, sid) else r
    case ChangeDominantSpeaker(d) => MarkDominant(r, d)
    case ClearParticipants => []
  }

  /** Adds `vs` one after the other, in order. */
  function AddAll(r: Records, vs: Records): (r': Records)
    ensures UniqueSids(r) ==> UniqueSids(r')
  {
    if vs == [] then r else Apply(AddAll(r, vs[..|vs| - 1]), AddParticipant(vs[|vs| - 1]))
  }

  /** The sid an operation targets, for the operations that target one. */
  function Target(op: RosterOp): Option<Sid>
  {
    match op
    case RemoveParticipant(sid) => Some(sid)
    case UpdateParticipant(sid, _) => Some(sid)
    case ChangePinnedParticipant(sid) => Some(sid)
    case _ => None
  }

  lemma {:induction false} AsMapKeys(r: Records)
    ensures forall s :: s in AsMap(r) <==> s in Sids(r)
    ensures forall s :: s in AsMap(r) ==> AsMap(r)[s].sid == s
  {
    if r != [] {
      AsMapKeys(r[1..]);
      assert Sids(r) == [r[0].sid] + Sids(r[1..]);
    }
  }

  /** Updating a record acts on the map view exactly at its sid. */
  lemma {:induction false} ModifyAsMap(r: Records, sid: Sid, c: Change)
    ensures AsMap(Modify(r, sid, c)) ==
      if sid in AsMap(r) then AsMap(r)[sid := ApplyChange(AsMap(r)[sid], c)] else AsMap(r)
  {
    if r != [] {
      ModifyAsMap(r[1..], sid, c);
      assert Modify(r, sid, c)[1..] == Modify(r[1..], sid, c);
    }
  }

  /** Removing a record deletes its sid from the map view and nothing else. */
  lemma {:induction false} RemoveAsMap(r: Records, sid: Sid)
    ensures AsMap(Remove(r, sid)) == AsMap(r) - {sid}
  {
    if r != [] {
      var rest := r[1..];
      RemoveAsMap(rest, sid);
      assert AsMap(r) == AsMap(rest)[r[0].sid := r[0]];
      if r[0].sid == sid {
        assert Remove(r, sid) == Remove(rest, sid);
        MapUpdateRemove(AsMap(rest), sid, r[0]);
      } else {
        assert Remove(r, sid) == [r[0]] + Remove(rest, sid);
        AsMapCons(r[0], Remove(rest, sid));
        MapRemoveUpdate(AsMap(rest), sid, r[0].sid, r[0]);
      }
    }
  }

  lemma MapUpdateRemove(m: map<Sid, ParticipantViewState>, k: Sid, v: ParticipantViewState)
    ensures m[k := v] - {k} == m - {k}
  {
  }

  lemma MapRemoveUpdate(m: map<Sid, ParticipantViewState>, k: Sid, k': Sid, v: ParticipantViewState)
    requires k != k'
    ensures m[k' := v] - {k} == (m - {k})[k' := v]
  {
  }

  lemma AsMapCons(p: ParticipantViewState, r: Records)
    ensures AsMap([p] + r) == AsMap(r)[p.sid := p]
  {
    assert ([p] + r)[1..] == r;
  }

  lemma {:induction false} AppendAsMap(r: Records, v: ParticipantViewState)
    requires v.sid !in Sids(r)
    ensures AsMap(r + [v]) == AsMap(r)[v.sid := v]
  {
    if r == [] {
      assert [v][1..] == [];
    } else {
      assert Sids(r) == [r[0].sid] + Sids(r[1..]);
      assert (r + [v])[1..] == r[1..] + [v];
      AppendAsMap(r[1..], v);
    }
  }

  /** Adding a participant binds its sid to the new record; a new sid goes to
      the end of the insertion order, a known one keeps its place. */
  lemma AddAsMap(r: Records, v: ParticipantViewState)
    ensures AsMap(Apply(r, AddParticipant(v))) == AsMap(r)[v.sid := v]
    ensures Sids(Apply(r, AddParticipant(v))) ==
      if v.sid in Sids(r) then Sids(r) else Sids(r) + [v.sid]
  {
    if v.sid in Sids(r) {
      AsMapKeys(r);
      ModifyAsMap(r, v.sid, ReplaceWith(v));
      assert ApplyChange(AsMap(r)[v.sid], ReplaceWith(v)) == v;
    } else {
      AppendAsMap(r, v);
    }
  }

  /** Every targeted operation on an unknown sid leaves the roster as it was. */
  lemma {:induction false} UnknownSidIsNoOp(r: Records, op: RosterOp)
    requires Target(op).Some? && Target(op).value !in Sids(r)
    ensures Apply(r, op) == r
  {
    assert forall i :: 0 <= i < |r| ==> Sids(r)[i] == r[i].sid;
    if op.RemoveParticipant? {
      RemoveAbsent(r, op.sid);
    }
  }

  lemma {:induction false} RemoveAbsent(r: Records, sid: Sid)
    requires sid !in Sids(r)
    ensures Remove(r, sid) == r
  {
    if r != [] {
      assert Sids(r) == [r[0].sid] + Sids(r[1..]);
      RemoveAbsent(r[1..], sid);
    }
  }

  /** A participant that connects and then disconnects leaves the roster as it was. */
  lemma {:induction false} AddThenRemove(r: Records, v: ParticipantViewState)
    requires v.sid !in Sids(r)
    ensures Apply(Apply(r, AddParticipant(v)), RemoveParticipant(v.sid)) == r
  {
    RemoveAppended(r, v);
  }

  lemma {:induction false} RemoveAppended(r: Records, v: ParticipantViewState)
    requires v.sid !in Sids(r)
    ensures Remove(r + [v], v.sid) == r
  {
    if r == [] {
      assert [v][1..] == [];
    } else {
      assert Sids(r) == [r[0].sid] + Sids(r[1..]);
      assert (r + [v])[1..] == r[1..] + [v];
      RemoveAppended(r[1..], v);
    }
  }

  /** After a dominant-speaker change exactly the named participant carries the
      mark (none when the engine names nobody or an unknown sid). */
  lemma DominantSpeakerExclusive(r: Records, dominant: Option<Sid>)
    requires UniqueSids(r)
    ensures var r' := Apply(r, ChangeDominantSpeaker(dominant));
      AtMostOneDominant(r') &&
      (forall i :: 0 <= i < |r'| ==> (r'[i].isDominantSpeaker <==> Some(r'[i].sid) == dominant))
  {
  }

  /** Pinning a present participant makes it the only pinned one; pinning an
      unknown sid changes nothing. */
  lemma PinExclusive(r: Records, sid: Sid)
    requires UniqueSids(r)
    ensures var r' := Apply(r, ChangePinnedParticipant(sid));
      if sid in Sids(r) then
        AtMostOnePinned(r') && forall i :: 0 <= i < |r'| ==> (r'[i].isPinned <==> r'[i].sid == sid)
      else r' == r
  {
  }

  /** Removal works piecewise, so the surviving records keep their insertion order. */
  lemma {:induction false} RemoveConcat(a: Records, b: Records, sid: Sid)
    ensures Remove(a + b, sid) == Remove(a, sid) + Remove(b, sid)
  {
    if a == [] {
      assert a + b == b;
    } else {
      assert (a + b)[0] == a[0];
      assert (a + b)[1..] == a[1..] + b;
      RemoveConcat(a[1..], b, sid);
    }
  }

  /** Seeding an empty roster with records of distinct sids yields exactly
      those records, in order. */
  lemma {:induction false} AddAllDistinct(vs: Records)
    requires UniqueSids(vs)
    ensures AddAll([], vs) == vs
  {
    if vs != [] {
      var n := |vs| - 1;
      var init := vs[..n];
      assert AddAll([], vs) == Apply(AddAll([], init), AddParticipant(vs[n]));
      assert UniqueSids(init);
      AddAllDistinct(init);
      assert forall i :: 0 <= i < n ==> Sids(init)[i] == vs[i].sid;
      assert vs[n].sid !in Sids(init);
      assert Apply(init, AddParticipant(vs[n])) == init + [vs[n]];
      assert init + [vs[n]] == vs;
    }
  }
}
