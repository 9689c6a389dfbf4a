/**
 Follow-ups: a follow-up must not overtake anything that the held write in front of
 which it stands must not overtake; and no write depends on one that came by `hold`.
 */
module QueueFollows {
  import opened Wrappers
  import opened Writes
  import opened QueueState
  import opened QueueMachine
  import opened QueueEffects
  import opened QueueConservation
  import opened QueueTables

  ghost predicate FollowOf(h: History, d: EndId)
    requires d in h.follow
  {
    && h.follow[d] < h.ids.issued && h.follow[d] !in h.ids.direct
    && d in h.gate && h.follow[d] in h.gate
    && Prior(h, d) <= Prior(h, h.follow[d]) + {h.follow[d]}
  }

  ghost predicate Followed(h: History) {
    && (forall d | d in h.follow :: d < h.ids.issued && FollowOf(h, d))
    && (forall d | d in h.ids.write && d !in h.ids.direct :: OwnKey(h.ids.write[d]).None?)
  }

  lemma HandOverFollowed(q: Queue, q': Queue, step: Step)
    requires Followed(q.h) && (step.HandOver? || step.HoldBack?) && HandedOver(q, q', step)
    requires step.HoldBack? ==> step.write.Marker?
    ensures Followed(q'.h)
  {
    hide Blocked;
    var end := q.h.ids.issued;
    assert SameTask(q, q') && GotEnd(q, q', step.write, step.HandOver?);
    hide HandedOver;
    forall d | d in q'.h.follow ensures d < q'.h.ids.issued && FollowOf(q'.h, d) {
      assert FollowOf(q.h, d);
    }
  }

  lemma ReleaseFollowed(q: Queue, q': Queue, n: nat, gate: Gate)
    requires Followed(q.h) && n in q.held && Released(q, q', n, gate)
    requires q.held[n].entry.end < q.h.ids.issued && q.h.ids.issued !in q.h.ids.direct
    requires q.held[n].follow.Some? ==> q.held[n].follow.value.Finish?
    ensures Followed(q'.h)
  {
    hide Followed, ReleasedBehind;
    var e := q.held[n].entry;
    if gate.Dropped? || q.st.stopped || q.held[n].follow.None? {
      assert q'.h == q.h.(gate := q.h.gate[e.end := gate]);
      SameFollowed(q.h, q'.h);
    } else {
      BehindFollowed(q, q', e, q.held[n].follow.value, gate);
    }
  }

  lemma BehindFollowed(q: Queue, q': Queue, e: Entry, follow: Write, gate: Gate)
    requires Followed(q.h) && ReleasedBehind(q, q', e, follow, gate)
    requires e.end < q.h.ids.issued && q.h.ids.issued !in q.h.ids.direct && follow.Finish?
    ensures Followed(q'.h)
  {
    forall d | d in q'.h.follow ensures d < q'.h.ids.issued && FollowOf(q'.h, d) {
      if d != e.end {
        assert FollowOf(q.h, d);
      }
    }
  }

  lemma SameFollowed(h: History, h': History)
    requires Followed(h) && h'.ids == h.ids && h'.follow == h.follow && h'.prior == h.prior
    requires forall d | d in h.gate :: d in h'.gate
    ensures Followed(h')
  {
    forall d | d in h'.follow ensures FollowOf(h', d) {
      assert FollowOf(h, d);
    }
  }

  /** The entry of a held write has an end that was given out. */
  lemma HeldEnd(q: Queue, n: nat)
    requires Inv(q) && n in q.held
    ensures q.held[n].entry.end < q.h.ids.issued && q.h.ids.issued !in q.h.ids.direct
  {
    hide Shape, LoadOf;
    HeldInLoad(q, n);
    Located(q, q.held[n].entry);
  }

  lemma FollowedStep(q: Queue, step: Step)
    requires Inv(q) && Gates(q) && Followed(q.h) && Enabled(q, step)
    ensures Followed(Apply(q, step).h)
  {
    hide Apply, Inv, Blocked, Keep, Followed, Absorb;
    var q' := Apply(q, step);
    if step.HandOver? || step.HoldBack? {
      HandOverEffect(q, step);
      HandOverFollowed(q, q', step);
    } else if step.GateEnds? {
      GateEndsEffect(q, step.seqNo, step.gate);
      HeldEnd(q, step.seqNo);
      assert Shut(q.h, q.held[step.seqNo]);
      ReleaseFollowed(q, q', step.seqNo, step.gate);
    } else {
      OtherFollows(q, step);
      SameFollowed(q.h, q'.h);
    }
  }

  lemma OtherFollows(q: Queue, step: Step)
    requires Enabled(q, step) && !step.HandOver? && !step.HoldBack? && !step.GateEnds?
    ensures var h := Apply(q, step).h;
            && h.ids == q.h.ids && h.follow == q.h.follow
            && h.prior == q.h.prior && h.gate == q.h.gate
  {
    hide Apply, Keep;
    if Quiet(step) {
      QuietEffect(q, step);
    } else if Ending(step) {
      EndingEffect(q, step);
    } else {
      UnqueuedEffect(q, step);
    }
  }
}
