/** The autonomous controller: its state, the decision update, the
    re-evaluation timer, and the calls it passes on to its sub-behaviour. */
module Controller {
  import opened Choice
  import opened Entities
  import opened Queries
  import opened Decisions

  /** Time between two re-evaluations. */
  const RecheckInterval: int := 5

  /** Controller state: the countdown to the next re-evaluation, the decision
      being followed, and the sub-behaviour it was handed to. */
  datatype Autonomous = Autonomous(nextCheck: int, current: Option<Decision>, sub: Option<SubBehavior>)

  /** The constructor: re-evaluate at the first tick, no decision yet. */
  function New(): (c: Autonomous)
    ensures c.current.None? && c.sub.None? && c.nextCheck <= 0
  {
    Autonomous(0, None, None)
  }

  /** The sub-behaviour is always the one the current decision was built
      with, and there is none before the first decision. */
  predicate Synced(c: Autonomous) {
    if c.current.Some? then c.sub == Some(BehaviorOf(c.current.value)) else c.sub.None?
  }

  /** A decision is being followed and is neither done nor bad. */
  predicate Committed(s: Scene, c: Autonomous) {
    c.current.Some? && Good(s, c.current.value)
  }

  /** `updateSubBehavior()`. A decision that is neither done nor bad is kept.
      Otherwise the candidates are built, those neither done nor bad are kept,
      and one of them is picked; when none is left nothing changes, even if
      the current decision is done or bad. */
  function UpdateSubBehavior(c: Autonomous, s: Scene, ch: Choices): (r: Autonomous)
    ensures r.nextCheck == c.nextCheck
    ensures Committed(s, c) ==> r == c
    ensures (forall d :: d in Candidates(s, ch) ==> !Good(s, d)) ==> r == c
    ensures r != c ==>
      && r.current.Some?
      && r.current.value in Candidates(s, ch)
      && Good(s, r.current.value)
      && r.sub == Some(BehaviorOf(r.current.value))
    ensures !Committed(s, c) && (exists d :: d in Candidates(s, ch) && Good(s, d)) ==>
      && r.current.Some?
      && r.current.value in Candidates(s, ch)
      && Good(s, r.current.value)
      && r.sub == Some(BehaviorOf(r.current.value))
  {
    if Committed(s, c) then c
    else
      match Pick(GoodDecisions(s, ch), ch.decision)
      case None => c
      case Some(d) => c.(current := Some(d), sub := Some(BehaviorOf(d)))
  }

  /** `attach(unit)`: take charge of the unit and decide at once. */
  function Attach(c: Autonomous, s: Scene, ch: Choices): (r: Autonomous)
    ensures c.current.None? ==> (r.current.Some? <==> exists d :: d in Candidates(s, ch) && Good(s, d))
    ensures r.current.Some? && r.current != c.current ==> Good(s, r.current.value)
  {
    UpdateSubBehavior(c, s, ch)
  }

  /** What a tick leaves behind: the new state, and the sub-behaviour the
      tick was forwarded to, if any. */
  datatype Tick = Tick(after: Autonomous, forwarded: Option<SubBehavior>)

  /** `cycle(e)`: count the timer down by the elapsed time; when it runs out,
      restart it and re-evaluate; then forward the tick to the sub-behaviour,
      if there is one. */
  function Cycle(c: Autonomous, e: int, s: Scene, ch: Choices): (t: Tick)
    ensures t.forwarded == t.after.sub
    ensures t.after.nextCheck > 0
    ensures c.nextCheck - e > 0 ==>
      t.after == c.(nextCheck := c.nextCheck - e)
    ensures c.nextCheck - e <= 0 ==>
      && t.after.nextCheck == RecheckInterval
      && t.after.current == UpdateSubBehavior(c, s, ch).current
      && t.after.sub == UpdateSubBehavior(c, s, ch).sub
  {
    var counted := c.(nextCheck := c.nextCheck - e);
    var after :=
      if counted.nextCheck <= 0
      then UpdateSubBehavior(counted.(nextCheck := RecheckInterval), s, ch)
      else counted;
    Tick(after, after.sub)
  }

  /** `reconsider()`: the controller never lets itself be swapped out. */
  function Reconsider(c: Autonomous): (r: Autonomous)
    ensures r == c
  {
    c
  }

  /** `reservedPosition()`: the sub-behaviour's reserved position when there
      is one, the unit's own position otherwise. `reservedOf` stands for the
      sub-behaviours' own `reservedPosition()`. */
  function ReservedPosition(c: Autonomous, me: Unit, reservedOf: SubBehavior -> Point): (p: Point)
    ensures c.sub.Some? ==> p == reservedOf(c.sub.value)
    ensures c.sub.None? ==> p == me.pos
  {
    match c.sub
    case Some(b) => reservedOf(b)
    case None => me.pos
  }

  /** Re-running the update in the same scene with any other oracle values
      changes nothing: a decision just taken or kept is not replaced. */
  lemma UpdateNoChurn(c: Autonomous, s: Scene, ch1: Choices, ch2: Choices)
    requires UpdateSubBehavior(c, s, ch1) != c || Committed(s, c)
    ensures UpdateSubBehavior(UpdateSubBehavior(c, s, ch1), s, ch2) == UpdateSubBehavior(c, s, ch1)
  {
  }

  /** Running the update twice in the same scene with the same oracle values
      is the same as running it once. */
  lemma UpdateIdempotent(c: Autonomous, s: Scene, ch: Choices)
    ensures UpdateSubBehavior(UpdateSubBehavior(c, s, ch), s, ch) == UpdateSubBehavior(c, s, ch)
  {
  }

  /** When the current decision has to go, every candidate that is neither
      done nor bad can be the replacement. */
  lemma UpdateReachesEveryGoodCandidate(c: Autonomous, s: Scene, ch: Choices, d: Decision)
    requires !Committed(s, c)
    requires d in Candidates(s, ch) && Good(s, d)
    ensures exists k: nat :: UpdateSubBehavior(c, s, ch.(decision := k)).current == Some(d)
  {
    var good := GoodDecisions(s, ch);
    PickReachesEvery(good, d);
    var k: nat :| Pick(good, k) == Some(d);
    assert GoodDecisions(s, ch.(decision := k)) == good;
    assert UpdateSubBehavior(c, s, ch.(decision := k)).current == Some(d);
  }

  /** The update keeps the sub-behaviour in step with the decision. */
  lemma UpdateKeepsSynced(c: Autonomous, s: Scene, ch: Choices)
    requires Synced(c)
    ensures Synced(UpdateSubBehavior(c, s, ch))
  {
  }

  /** One frame of the game loop: elapsed time, the scene at that moment,
      and the oracle values of that frame's picks. */
  datatype Frame = Frame(elapsed: int, scene: Scene, choices: Choices)

  /** The controller after a sequence of frames. */
  function Run(c: Autonomous, frames: seq<Frame>): Autonomous
    decreases |frames|
  {
    if |frames| == 0 then c
    else Run(Cycle(c, frames[0].elapsed, frames[0].scene, frames[0].choices).after, frames[1..])
  }

  /** In a synced controller the reserved position follows the decision:
      the reserved position of the behaviour the current decision was built
      with, or the unit's own position before the first decision. */
  lemma ReservedPositionFollowsDecision(c: Autonomous, me: Unit, reservedOf: SubBehavior -> Point)
    requires Synced(c)
    ensures ReservedPosition(c, me, reservedOf)
            == if c.current.Some? then reservedOf(BehaviorOf(c.current.value)) else me.pos
  {
  }

  /** After any run from a synced controller, the reserved position still
      follows the decision. */
  lemma RunReservedPosition(c: Autonomous, frames: seq<Frame>, me: Unit, reservedOf: SubBehavior -> Point)
    requires Synced(c)
    ensures var r := Run(c, frames);
            ReservedPosition(r, me, reservedOf)
            == if r.current.Some? then reservedOf(BehaviorOf(r.current.value)) else me.pos
  {
    RunKeepsSynced(c, frames);
  }

  /** Over any run, the sub-behaviour stays in step with the decision. */
  lemma {:induction false} RunKeepsSynced(c: Autonomous, frames: seq<Frame>)
    requires Synced(c)
    ensures Synced(Run(c, frames))
    decreases |frames|
  {
    if |frames| > 0 {
      var f := frames[0];
      var t := Cycle(c, f.elapsed, f.scene, f.choices);
      if c.nextCheck - f.elapsed <= 0 {
        UpdateKeepsSynced(c.(nextCheck := RecheckInterval), f.scene, f.choices);
      }
      RunKeepsSynced(t.after, frames[1..]);
    }
  }

  /** With non-negative elapsed times, the countdown never exceeds the
      interval, and after at least one frame it is positive. */
  lemma {:induction false} RunTimerBounded(c: Autonomous, frames: seq<Frame>)
    requires c.nextCheck <= RecheckInterval
    requires forall i :: 0 <= i < |frames| ==> frames[i].elapsed >= 0
    ensures Run(c, frames).nextCheck <= RecheckInterval
    ensures |frames| > 0 ==> Run(c, frames).nextCheck > 0
    decreases |frames|
  {
    if |frames| > 0 {
      var f := frames[0];
      var t := Cycle(c, f.elapsed, f.scene, f.choices);
      RunTimerBounded(t.after, frames[1..]);
    }
  }

  /** A decision that stays neither done nor bad in every frame is followed
      for the whole run, whatever the timer and the picks do. */
  lemma {:induction false} RunKeepsGoodDecision(c: Autonomous, frames: seq<Frame>)
    requires c.current.Some?
    requires forall i :: 0 <= i < |frames| ==> Good(frames[i].scene, c.current.value)
    ensures Run(c, frames).current == c.current
    ensures Run(c, frames).sub == c.sub
    decreases |frames|
  {
    if |frames| > 0 {
      var f := frames[0];
      var t := Cycle(c, f.elapsed, f.scene, f.choices);
      assert Committed(f.scene, c.(nextCheck := RecheckInterval));
      assert t.after.current == c.current && t.after.sub == c.sub;
      RunKeepsGoodDecision(t.after, frames[1..]);
    }
  }
}
