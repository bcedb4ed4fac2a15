/** What the archive demands of an accepted group, archive.py's GroupValidator. */
module GroupSteps {
  import opened Prelude
  import opened Contracts
  import opened MatchingSteps

  /** The part of a station snapshot that identifies the cameras. */
  datatype Snapshot = Snapshot(clockId: string, cameras: PerRole<string>, simulated: bool)

  type Previous = PerRole<Option<Frame>>

  predicate Ordered(g: Match) {
    && g.reason == Accepted && |g.members| == 3
    && g.members[0].role == Wrist && g.members[1].role == ThirdLeft && g.members[2].role == ThirdRight
  }

  /** One member against the snapshot, the anchor, and the last accepted frame of its camera. */
  predicate MemberPasses(snapshot: Snapshot, config: Config, previous: Previous, anchor: Frame, f: Frame) {
    && f.clockId == snapshot.clockId && f.color.simulated == snapshot.simulated
    && f.color.sourceId == snapshot.cameras.Get(f.role)
    && Near(config, anchor, f)
    && match previous.Get(f.role)
       case None => true
       case Some(p) => f.generation == p.generation && Freshness(f, Some(p)) == Accepted
  }

  /** The validator's next memory, or nothing when it refuses the group. */
  function Check(snapshot: Snapshot, config: Config, previous: Previous, g: Match): Option<Previous> {
    if !Ordered(g) || Bare(g.anchor) != Bare(g.members[0]) then None
    else if exists i :: 0 <= i < 3 && !MemberPasses(snapshot, config, previous, g.anchor, g.members[i]) then None
    else Some(PerRole(Some(Bare(g.members[0])), Some(Bare(g.members[1])), Some(Bare(g.members[2]))))
  }

  /** Validate the accepted groups of a sequence of decisions, skipping the rejections. */
  function CheckAll(snapshot: Snapshot, config: Config, previous: Previous, ms: seq<Match>): Option<Previous>
    decreases |ms|
  {
    if ms == [] then Some(previous)
    else if ms[0].reason != Accepted then CheckAll(snapshot, config, previous, ms[1..])
    else match Check(snapshot, config, previous, ms[0])
      case None => None
      case Some(next) => CheckAll(snapshot, config, next, ms[1..])
  }

  lemma {:induction false} CheckAllSplit(
    snapshot: Snapshot, config: Config, previous: Previous, a: seq<Match>, b: seq<Match>
  )
    ensures CheckAll(snapshot, config, previous, a + b) ==
            match CheckAll(snapshot, config, previous, a)
            case None => None
            case Some(next) => CheckAll(snapshot, config, next, b)
    decreases |a|
  {
    hide Check;
    if a == [] {
      assert a + b == b;
    } else {
      assert (a + b)[1..] == a[1..] + b;
      if a[0].reason != Accepted {
        CheckAllSplit(snapshot, config, previous, a[1..], b);
      } else {
        match Check(snapshot, config, previous, a[0])
        case None =>
        case Some(next) => CheckAllSplit(snapshot, config, next, a[1..], b);
      }
    }
  }
}

/** The validator as the archive's writer and verifier each keep one. */
module Groups {
  import opened Prelude
  import opened Contracts
  import opened MatchingSteps
  import opened Steps = GroupSteps

  class GroupValidator {
    const snapshot: Snapshot
    const config: Config
    var previous: Previous

    constructor (snapshot: Snapshot, config: Config)
      ensures this.snapshot == snapshot && this.config == config && previous == NOTHING
    {
      this.snapshot, this.config, previous := snapshot, config, NOTHING;
    }

    /** A refused group leaves the memory as it was. */
    method Check(g: Match) returns (ok: bool)
      modifies this
      ensures match Steps.Check(snapshot, config, old(previous), g)
              case None => !ok && previous == old(previous)
              case Some(next) => ok && previous == next
    {
      if !Ordered(g) || Bare(g.anchor) != Bare(g.members[0]) {
        return false;
      }
      for i := 0 to 3
        invariant forall k :: 0 <= k < i ==> MemberPasses(snapshot, config, previous, g.anchor, g.members[k])
        invariant previous == old(previous)
      {
        if !MemberPasses(snapshot, config, previous, g.anchor, g.members[i]) {
          return false;
        }
      }
      previous := PerRole(Some(Bare(g.members[0])), Some(Bare(g.members[1])), Some(Bare(g.members[2])));
      ok := true;
    }
  }
}
