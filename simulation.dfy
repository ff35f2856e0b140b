/**
 * The simulation driver (simulation.py): how a shoal of free fish and replicas is laid out,
 * one step of the whole shoal with its decision tally, a run until every free fish has
 * decided, and a batch of runs collecting the proportion of fish that chose the top.
 *
 * A fish is seen here as the record of its state: its position and velocity, whether it
 * is a replica (and then its final y) and its decision. What one fish does in a step is
 * the parameter `update(i, shoal)`: the new record of fish i given the shoal as it stands
 * when fish i moves.
 */
module Simulations {
  import opened Wrappers
  import opened Vectors
  import Fishes

  // ------------------------------------------------------------------
  // The arena constants of Simulation.__init__
  // ------------------------------------------------------------------

  const Width: real := 1400.0
  const Height: real := 800.0
  const BoxWidth: real := 120.0
  const BoxPaddingLeft: real := 40.0
  const BoxLeft: real := Width - BoxWidth - BoxPaddingLeft
  const BoxTop: real := 335.0
  const ReplicaFinalYTop: real := 80.0
  const ReplicaFinalYBottom: real := 720.0

  // ------------------------------------------------------------------
  // Agents
  // ------------------------------------------------------------------

  datatype Side = Top | Bottom

  /** A free fish, or a replica steering towards its final y. */
  datatype Kind = Free | Replica(finalY: real)

  datatype Agent = Agent(position: Vec, velocity: Vec, kind: Kind, decision: Option<Side>)

  /** The draws that place one free fish, in the order the source takes them: the start x
      and the start y, then the two velocity draws of the fish's constructor. */
  datatype Placement = Placement(x: real, y: real, vx: real, vy: real)

  /** All the draws building one shoal: one placement per free fish, then the two velocity
      draws of each top replica and of each bottom replica. */
  datatype ShoalDraws = ShoalDraws(free: seq<Placement>, top: seq<(real, real)>, bottom: seq<(real, real)>)

  /** The per-fish step keeps every fish's kind: a free fish never becomes a replica. */
  ghost predicate KeepsKind(update: (nat, seq<Agent>) -> Agent) {
    forall i: nat, s: seq<Agent> :: i < |s| ==> update(i, s).kind == s[i].kind
  }

  // ------------------------------------------------------------------
  // Starting coordinates
  // ------------------------------------------------------------------

  /** get_starting_x: replicas start at a fixed x, free fish at a random x across the box;
      r is the draw of np.random.random(), used only in the random case. */
  function GetStartingX(position: Option<string>, r: real): (x: real)
    ensures position == Some("top") || position == Some("bottom") ==> x == 1360.0
    ensures position != Some("top") && position != Some("bottom") && 0.0 <= r < 1.0 ==>
              1240.0 <= x < 1360.0
  {
    if position == Some("top") || position == Some("bottom") then Width - 40.0
    else BoxLeft + r * BoxWidth
  }

  /** get_starting_y: top replicas 40 below the box top, bottom replicas 40 above its bottom,
      free fish at a random y across the box. */
  function GetStartingY(position: Option<string>, r: real): (y: real)
    ensures position == Some("top") ==> y == 375.0
    ensures position == Some("bottom") ==> y == 415.0
    ensures position != Some("top") && position != Some("bottom") && 0.0 <= r < 1.0 ==>
              335.0 <= y < 455.0
  {
    if position == Some("top") then BoxTop + 40.0
    else if position == Some("bottom") then BoxTop + BoxWidth - 40.0
    else BoxTop + r * BoxWidth
  }

  /** A free fish of the list comprehension in __init__, from its four draws. */
  function FreeAgent(p: Placement): Agent {
    Agent(Vec(GetStartingX(None, p.x), GetStartingY(None, p.y)), Fishes.InitialVelocity(p.vx, p.vy), Free, None)
  }

  /** The final y add_replica gives: 80 for "top", 720 for anything else. */
  function FinalY(position: string): (y: real)
    ensures y == if position == "top" then 80.0 else 720.0
  {
    if position == "top" then ReplicaFinalYTop else ReplicaFinalYBottom
  }

  /** The replica add_replica appends: rx and ry are the draws used when position is neither
      "top" nor "bottom", vx and vy the velocity draws of its constructor. */
  function ReplicaAgent(position: string, rx: real, ry: real, vx: real, vy: real): Agent {
    Agent(Vec(GetStartingX(Some(position), rx), GetStartingY(Some(position), ry)),
          Fishes.InitialVelocity(vx, vy), Replica(FinalY(position)), None)
  }

  function FreeAgents(ps: seq<Placement>): seq<Agent> {
    seq(|ps|, i requires 0 <= i < |ps| => FreeAgent(ps[i]))
  }

  function TopReplicas(v: seq<(real, real)>): seq<Agent> {
    seq(|v|, i requires 0 <= i < |v| => ReplicaAgent("top", 0.0, 0.0, v[i].0, v[i].1))
  }

  function BottomReplicas(v: seq<(real, real)>): seq<Agent> {
    seq(|v|, i requires 0 <= i < |v| => ReplicaAgent("bottom", 0.0, 0.0, v[i].0, v[i].1))
  }

  /** The shoal __init__ builds: one free fish per placement, then the top and the bottom replicas. */
  function InitialShoal(d: ShoalDraws): seq<Agent> {
    FreeAgents(d.free) + TopReplicas(d.top) + BottomReplicas(d.bottom)
  }

  /** The layout of a new shoal: its length, free fish in the box first with a velocity of
      components in [-5, 5), then the top replicas at (1360, 375) bound for y 80, then the
      bottom replicas at (1360, 415) bound for y 720, each with the velocity of its own draws. */
  lemma InitialShoalLayout(d: ShoalDraws)
    requires forall i :: 0 <= i < |d.free| ==>
               && 0.0 <= d.free[i].x < 1.0 && 0.0 <= d.free[i].y < 1.0
               && 0.0 <= d.free[i].vx < 1.0 && 0.0 <= d.free[i].vy < 1.0
    ensures var s := InitialShoal(d);
            var n, t := |d.free|, |d.top|;
            && |s| == n + t + |d.bottom|
            && (forall i :: 0 <= i < n ==>
                  && s[i].kind == Free && s[i].decision == None
                  && 1240.0 <= s[i].position.x < 1360.0 && 335.0 <= s[i].position.y < 455.0
                  && s[i].velocity == Fishes.InitialVelocity(d.free[i].vx, d.free[i].vy)
                  && -5.0 <= s[i].velocity.x < 5.0 && -5.0 <= s[i].velocity.y < 5.0)
            && (forall i :: n <= i < n + t ==>
                  s[i] == Agent(Vec(1360.0, 375.0), Fishes.InitialVelocity(d.top[i - n].0, d.top[i - n].1),
                                Replica(80.0), None))
            && (forall i :: n + t <= i < |s| ==>
                  s[i] == Agent(Vec(1360.0, 415.0), Fishes.InitialVelocity(d.bottom[i - n - t].0, d.bottom[i - n - t].1),
                                Replica(720.0), None))
  {
  }

  /** A new shoal has exactly one free fish per placement. */
  lemma InitialShoalFree(d: ShoalDraws)
    ensures CountFree(InitialShoal(d)) == |d.free|
  {
    var free := FreeAgents(d.free);
    var tops := TopReplicas(d.top);
    var bottoms := BottomReplicas(d.bottom);
    CountFreeAppend(free + tops, bottoms);
    CountFreeAppend(free, tops);
    CountFreeAll(free);
    CountFreeNone(tops);
    CountFreeNone(bottoms);
  }

  // ------------------------------------------------------------------
  // The tally of run_step
  // ------------------------------------------------------------------

  /** The number of free fish (not replicas). */
  function CountFree(s: seq<Agent>): (n: nat)
    ensures n <= |s|
  {
    if s == [] then 0 else (if s[0].kind.Free? then 1 else 0) + CountFree(s[1..])
  }

  /** The number of free fish that have decided for the given side. */
  function CountDecided(s: seq<Agent>, side: Side): nat {
    if s == [] then 0
    else (if s[0].kind.Free? && s[0].decision == Some(side) then 1 else 0) + CountDecided(s[1..], side)
  }

  datatype Tally = Tally(allDecided: bool, top: nat, bottom: nat)

  /** The tally that closes run_step: never more decided fish than free ones, and all decided
      exactly when every free fish has a decision. */
  function TallyOf(s: seq<Agent>): (t: Tally)
    ensures t.top + t.bottom <= CountFree(s)
    ensures t.allDecided <==> forall i :: 0 <= i < |s| && s[i].kind.Free? ==> s[i].decision.Some?
  {
    TallyBounds(s);
    var top := CountDecided(s, Top);
    var bottom := CountDecided(s, Bottom);
    Tally(top + bottom == CountFree(s), top, bottom)
  }

  /** Only free fish are counted, so top + bottom never exceeds their number, and it reaches
      their number exactly when every free fish has a decision. */
  lemma {:induction false} TallyBounds(s: seq<Agent>)
    ensures CountDecided(s, Top) + CountDecided(s, Bottom) <= CountFree(s)
    ensures CountDecided(s, Top) + CountDecided(s, Bottom) == CountFree(s) <==> forall i :: 0 <= i < |s| && s[i].kind.Free? ==> s[i].decision.Some?
  {
    if s != [] {
      var t := s[1..];
      TallyBounds(t);
      var h := s[0];
      var head := (if h.kind.Free? && h.decision == Some(Top) then 1 else 0)
                  + (if h.kind.Free? && h.decision == Some(Bottom) then 1 else 0);
      assert CountDecided(s, Top) + CountDecided(s, Bottom) == head + CountDecided(t, Top) + CountDecided(t, Bottom);
      assert CountFree(s) == (if h.kind.Free? then 1 else 0) + CountFree(t);
      if h.decision.Some? {
        match h.decision.value
        case Top => assert h.decision == Some(Top);
        case Bottom => assert h.decision == Some(Bottom);
      }
      assert head == (if h.kind.Free? && h.decision.Some? then 1 else 0);
      assert forall i :: 0 <= i < |t| ==> t[i] == s[i + 1];
      assert (forall i :: 0 <= i < |s| && s[i].kind.Free? ==> s[i].decision.Some?) <==>
             (s[0].kind.Free? ==> s[0].decision.Some?)
             && (forall i :: 0 <= i < |t| && t[i].kind.Free? ==> t[i].decision.Some?)
      by {
        if forall i :: 0 <= i < |t| && t[i].kind.Free? ==> t[i].decision.Some? {
          forall i | 0 <= i < |s| && s[i].kind.Free? && (s[0].kind.Free? ==> s[0].decision.Some?)
            ensures s[i].decision.Some?
          {
            if i > 0 { assert s[i] == t[i - 1]; }
          }
        }
      }
    }
  }

  lemma {:induction false} CountFreeAppend(a: seq<Agent>, b: seq<Agent>)
    ensures CountFree(a + b) == CountFree(a) + CountFree(b)
  {
    if a != [] {
      assert (a + b)[1..] == a[1..] + b;
      CountFreeAppend(a[1..], b);
    } else {
      assert a + b == b;
    }
  }

  lemma {:induction false} CountFreeAll(s: seq<Agent>)
    requires forall i :: 0 <= i < |s| ==> s[i].kind.Free?
    ensures CountFree(s) == |s|
  {
    if s != [] {
      CountFreeAll(s[1..]);
    }
  }

  lemma {:induction false} CountFreeNone(s: seq<Agent>)
    requires forall i :: 0 <= i < |s| ==> s[i].kind.Replica?
    ensures CountFree(s) == 0
  {
    if s != [] {
      CountFreeNone(s[1..]);
    }
  }

  /** CountFree looks at kinds only. */
  lemma {:induction false} CountFreeSameKinds(s: seq<Agent>, t: seq<Agent>)
    requires |s| == |t| && forall i :: 0 <= i < |s| ==> s[i].kind == t[i].kind
    ensures CountFree(s) == CountFree(t)
  {
    if s != [] {
      assert s[0].kind == t[0].kind;
      CountFreeSameKinds(s[1..], t[1..]);
    }
  }

  // ------------------------------------------------------------------
  // One step of the shoal
  // ------------------------------------------------------------------

  /** The loop of run_step after its first n fish have moved, each in list order against
      the shoal as the earlier ones left it. */
  function Sweep(update: (nat, seq<Agent>) -> Agent, s: seq<Agent>, n: nat): (r: seq<Agent>)
    requires n <= |s|
    ensures |r| == |s|
  {
    if n == 0 then s
    else
      var t := Sweep(update, s, n - 1);
      t[n - 1 := update(n - 1, t)]
  }

  /** Every fish moves exactly once: fish j < n holds the record update gave it when its turn
      came, and the fish not reached yet are untouched. */
  lemma {:induction false} SweepOnce(update: (nat, seq<Agent>) -> Agent, s: seq<Agent>, n: nat)
    requires n <= |s|
    ensures forall j :: 0 <= j < n ==> Sweep(update, s, n)[j] == update(j, Sweep(update, s, j))
    ensures forall j :: n <= j < |s| ==> Sweep(update, s, n)[j] == s[j]
  {
    if n > 0 {
      SweepOnce(update, s, n - 1);
    }
  }

  /** A kind-keeping step keeps every fish's kind, hence the number of free fish. */
  lemma {:induction false} SweepKeepsKinds(update: (nat, seq<Agent>) -> Agent, s: seq<Agent>, n: nat)
    requires KeepsKind(update) && n <= |s|
    ensures forall j :: 0 <= j < |s| ==> Sweep(update, s, n)[j].kind == s[j].kind
    ensures CountFree(Sweep(update, s, n)) == CountFree(s)
  {
    if n > 0 {
      SweepKeepsKinds(update, s, n - 1);
      var t := Sweep(update, s, n - 1);
      assert update(n - 1, t).kind == t[n - 1].kind;
    }
    CountFreeSameKinds(Sweep(update, s, n), s);
  }

  // ------------------------------------------------------------------
  // Running until every free fish has decided
  // ------------------------------------------------------------------

  /** headless_simulation's loop from shoal s with at most fuel more steps: the tally of the
      first step after which every free fish has decided, or None if fuel runs out first. */
  function Settle(update: (nat, seq<Agent>) -> Agent, s: seq<Agent>, fuel: nat): Option<(nat, nat)>
    decreases fuel
  {
    if fuel == 0 then None
    else
      var next := Sweep(update, s, |s|);
      var tally := TallyOf(next);
      if tally.allDecided then Some((tally.top, tally.bottom)) else Settle(update, next, fuel - 1)
  }

  /** When the run ends, every free fish has decided: top + bottom is the number of free fish. */
  lemma {:induction false} SettleDecidesAll(update: (nat, seq<Agent>) -> Agent, s: seq<Agent>, fuel: nat)
    requires KeepsKind(update)
    ensures var r := Settle(update, s, fuel);
            r.Some? ==> r.value.0 + r.value.1 == CountFree(s)
    decreases fuel
  {
    if fuel > 0 {
      var next := Sweep(update, s, |s|);
      SweepKeepsKinds(update, s, |s|);
      SettleDecidesAll(update, next, fuel - 1);
    }
  }

  /** A shoal without free fish has all decided after its first step. */
  lemma NoFreeFishSettlesAtOnce(update: (nat, seq<Agent>) -> Agent, s: seq<Agent>, fuel: nat)
    requires KeepsKind(update) && CountFree(s) == 0 && fuel > 0
    ensures Settle(update, s, fuel) == Some((0, 0))
  {
    SweepKeepsKinds(update, s, |s|);
    TallyBounds(Sweep(update, s, |s|));
  }

  // ------------------------------------------------------------------
  // The simulation object
  // ------------------------------------------------------------------

  class Simulation {
    const fishes: nat
    const replicasTop: nat
    var shoal: seq<Agent>
    var replicasCoordinates: seq<(real, real, real)>

    /** __init__: d.free[i] places free fish i, d.top[i] and d.bottom[i] are the velocity
        draws of the i-th top and bottom replica. */
    constructor (fishes: nat, replicasTop: nat, replicasBottom: nat, d: ShoalDraws)
      requires |d.free| == fishes && |d.top| == replicasTop && |d.bottom| == replicasBottom
      ensures this.fishes == fishes && this.replicasTop == replicasTop
      ensures shoal == InitialShoal(d)
      ensures replicasCoordinates ==
                seq(replicasTop, _ => (1360.0, 375.0, 80.0)) + seq(replicasBottom, _ => (1360.0, 415.0, 720.0))
    {
      this.fishes := fishes;
      this.replicasTop := replicasTop;
      shoal := FreeAgents(d.free);
      replicasCoordinates := [];
      new;
      ghost var free := shoal;
      for i := 0 to replicasTop
        invariant shoal == free + TopReplicas(d.top[..i])
        invariant replicasCoordinates == seq(i, _ => (1360.0, 375.0, 80.0))
      {
        AddReplica("top", 0.0, 0.0, d.top[i].0, d.top[i].1);
        assert TopReplicas(d.top[..i + 1]) == TopReplicas(d.top[..i]) + [ReplicaAgent("top", 0.0, 0.0, d.top[i].0, d.top[i].1)];
      }
      assert d.top[..replicasTop] == d.top;
      ghost var withTops := shoal;
      ghost var tops := replicasCoordinates;
      for i := 0 to replicasBottom
        invariant shoal == withTops + BottomReplicas(d.bottom[..i])
        invariant replicasCoordinates == tops + seq(i, _ => (1360.0, 415.0, 720.0))
      {
        AddReplica("bottom", 0.0, 0.0, d.bottom[i].0, d.bottom[i].1);
        assert BottomReplicas(d.bottom[..i + 1]) == BottomReplicas(d.bottom[..i]) + [ReplicaAgent("bottom", 0.0, 0.0, d.bottom[i].0, d.bottom[i].1)];
      }
      assert d.bottom[..replicasBottom] == d.bottom;
    }

    /** add_replica: append one replica and its (x, y, final y) line; rx and ry are the draws
        get_starting_x and get_starting_y take when position is neither "top" nor "bottom",
        vx and vy the velocity draws of the replica's constructor. */
    method AddReplica(position: string, rx: real, ry: real, vx: real, vy: real)
      modifies this`shoal, this`replicasCoordinates
      ensures shoal == old(shoal) + [ReplicaAgent(position, rx, ry, vx, vy)]
      ensures replicasCoordinates == old(replicasCoordinates)
                + [(GetStartingX(Some(position), rx), GetStartingY(Some(position), ry), FinalY(position))]
    {
      var x := GetStartingX(Some(position), rx);
      var y := GetStartingY(Some(position), ry);
      var finalY := FinalY(position);
      replicasCoordinates := replicasCoordinates + [(x, y, finalY)];
      shoal := shoal + [Agent(Vec(x, y), Fishes.InitialVelocity(vx, vy), Replica(finalY), None)];
    }

    /** run_step without drawing: every fish moves once in list order, then the tally. */
    method RunStep(update: (nat, seq<Agent>) -> Agent) returns (allDecided: bool, top: nat, bottom: nat)
      modifies this`shoal
      ensures shoal == Sweep(update, old(shoal), |old(shoal)|)
      ensures Tally(allDecided, top, bottom) == TallyOf(shoal)
    {
      ghost var start := shoal;
      for i := 0 to |shoal|
        invariant |shoal| == |start|
        invariant shoal == Sweep(update, start, i)
      {
        shoal := shoal[i := update(i, shoal)];
      }
      var fishesNotReplica := CountFree(shoal);
      top := CountDecided(shoal, Top);
      bottom := CountDecided(shoal, Bottom);
      allDecided := top + bottom == fishesNotReplica;
    }
  }

  // ------------------------------------------------------------------
  // Headless runs
  // ------------------------------------------------------------------

  /** headless_simulation: build a shoal and step it until every free fish has decided.
      The source loops without bound; here at most maxSteps steps are taken and None
      reports that the shoal had not settled by then. */
  method HeadlessSimulation(fishes: nat, replicasTop: nat, replicasBottom: nat, d: ShoalDraws,
                            update: (nat, seq<Agent>) -> Agent, maxSteps: nat)
    returns (result: Option<(nat, nat)>)
    requires |d.free| == fishes && |d.top| == replicasTop && |d.bottom| == replicasBottom
    ensures result == Settle(update, InitialShoal(d), maxSteps)
    ensures KeepsKind(update) && result.Some? ==> result.value.0 + result.value.1 == fishes
  {
    var simulation := new Simulation(fishes, replicasTop, replicasBottom, d);
    ghost var s0 := simulation.shoal;
    var allDecided := false;
    var step: nat := 0;
    var top, bottom := 0, 0;
    while !allDecided && step < maxSteps
      invariant step <= maxSteps
      invariant !allDecided ==> Settle(update, s0, maxSteps) == Settle(update, simulation.shoal, maxSteps - step)
      invariant allDecided ==> Settle(update, s0, maxSteps) == Some((top, bottom))
      decreases maxSteps - step, !allDecided
    {
      step := step + 1;
      allDecided, top, bottom := simulation.RunStep(update);
    }
    result := if allDecided then Some((top, bottom)) else None;
    if KeepsKind(update) {
      SettleDecidesAll(update, s0, maxSteps);
      InitialShoalFree(d);
    }
  }

  /** What headless_simulations ends with: the proportions, a run that never settles, or
      the division top / fishes failing because there are no fish. */
  datatype Batch = Proportions(ps: seq<real>) | NotSettled(shoal: nat) | DivisionByZero

  /** The run of shoal i of a batch. */
  function RunOf(draws: seq<ShoalDraws>, update: (nat, seq<Agent>) -> Agent, maxSteps: nat, i: nat): Option<(nat, nat)>
    requires i < |draws|
  {
    Settle(update, InitialShoal(draws[i]), maxSteps)
  }

  /** headless_simulations over its first n shoals; draws[i] are the draws building shoal i. */
  function BatchOf(fishes: nat, draws: seq<ShoalDraws>,
                   update: (nat, seq<Agent>) -> Agent, maxSteps: nat, n: nat): Batch
    requires n <= |draws|
  {
    if n == 0 then Proportions([])
    else
      var before := BatchOf(fishes, draws, update, maxSteps, n - 1);
      if !before.Proportions? then before
      else
        match RunOf(draws, update, maxSteps, n - 1)
        case None => NotSettled(n - 1)
        case Some(r) =>
          if fishes == 0 then DivisionByZero
          else Proportions(before.ps + [r.0 as real / fishes as real])
  }

  /** The batch yields its proportions exactly when every shoal settles and the division by
      the number of fish is defined. */
  lemma {:induction false} BatchSucceedsIff(fishes: nat,
                                            draws: seq<ShoalDraws>,
                                            update: (nat, seq<Agent>) -> Agent, maxSteps: nat, n: nat)
    requires n <= |draws|
    ensures BatchOf(fishes, draws, update, maxSteps, n).Proportions? <==>
              (n == 0 || fishes > 0)
              && forall i :: 0 <= i < n ==> RunOf(draws, update, maxSteps, i).Some?
  {
    if n > 0 {
      BatchSucceedsIff(fishes, draws, update, maxSteps, n - 1);
    }
  }

  /** The batch holds one proportion per shoal, top_i / fishes. */
  lemma {:induction false} BatchValues(fishes: nat,
                                       draws: seq<ShoalDraws>,
                                       update: (nat, seq<Agent>) -> Agent, maxSteps: nat, n: nat)
    requires n <= |draws|
    ensures var b := BatchOf(fishes, draws, update, maxSteps, n);
            b.Proportions? ==>
              && |b.ps| == n
              && forall i :: 0 <= i < n ==>
                   var r := RunOf(draws, update, maxSteps, i);
                   r.Some? && b.ps[i] == r.value.0 as real / fishes as real
  {
    if n > 0 {
      BatchValues(fishes, draws, update, maxSteps, n - 1);
      var before := BatchOf(fishes, draws, update, maxSteps, n - 1);
      var b := BatchOf(fishes, draws, update, maxSteps, n);
      if b.Proportions? {
        var r := RunOf(draws, update, maxSteps, n - 1);
        assert before.Proportions? && r.Some?;
        var q := r.value.0 as real / fishes as real;
        assert b.ps == before.ps + [q];
        forall i | 0 <= i < n
          ensures var ri := RunOf(draws, update, maxSteps, i);
                  ri.Some? && b.ps[i] == ri.value.0 as real / fishes as real
        {
          if i < n - 1 {
            assert b.ps[i] == before.ps[i];
          } else {
            assert b.ps[i] == q;
          }
        }
      }
    }
  }

  /** Each proportion of a batch lies in [0, 1]. */
  lemma BatchProportions(fishes: nat,
                         draws: seq<ShoalDraws>,
                         update: (nat, seq<Agent>) -> Agent, maxSteps: nat, n: nat)
    requires n <= |draws| && forall i :: 0 <= i < |draws| ==> |draws[i].free| == fishes
    requires KeepsKind(update)
    ensures var b := BatchOf(fishes, draws, update, maxSteps, n);
            b.Proportions? ==> |b.ps| == n && forall i :: 0 <= i < n ==> 0.0 <= b.ps[i] <= 1.0
  {
    BatchValues(fishes, draws, update, maxSteps, n);
    var b := BatchOf(fishes, draws, update, maxSteps, n);
    if b.Proportions? && n > 0 {
      BatchSucceedsIff(fishes, draws, update, maxSteps, n);
      forall i | 0 <= i < n
        ensures 0.0 <= b.ps[i] <= 1.0
      {
        RunProportionBounds(fishes, draws[i], update, maxSteps);
      }
    }
  }

  /** A settled run of a laid-out shoal gives a proportion top / fishes in [0, 1]. */
  lemma RunProportionBounds(fishes: nat, d: ShoalDraws, update: (nat, seq<Agent>) -> Agent, maxSteps: nat)
    requires |d.free| == fishes && 0 < fishes && KeepsKind(update)
    ensures var r := Settle(update, InitialShoal(d), maxSteps);
            r.Some? ==> 0.0 <= r.value.0 as real / fishes as real <= 1.0
  {
    var r := Settle(update, InitialShoal(d), maxSteps);
    if r.Some? {
      SettleDecidesAll(update, InitialShoal(d), maxSteps);
      InitialShoalFree(d);
      ProportionBounds(r.value.0, fishes);
    }
  }

  /** headless_simulations: run the shoals one after the other and collect top / fishes. */
  method HeadlessSimulations(shoals: nat, fishes: nat, replicasTop: nat, replicasBottom: nat,
                             draws: seq<ShoalDraws>, update: (nat, seq<Agent>) -> Agent, maxSteps: nat)
    returns (result: Batch)
    requires |draws| == shoals
    requires forall i :: 0 <= i < shoals ==>
               |draws[i].free| == fishes && |draws[i].top| == replicasTop && |draws[i].bottom| == replicasBottom
    ensures result == BatchOf(fishes, draws, update, maxSteps, shoals)
  {
    var proportions: seq<real> := [];
    for i := 0 to shoals
      invariant BatchOf(fishes, draws, update, maxSteps, i) == Proportions(proportions)
    {
      var run := HeadlessSimulation(fishes, replicasTop, replicasBottom, draws[i], update, maxSteps);
      if run.None? {
        BatchStops(fishes, draws, update, maxSteps, i + 1, shoals);
        return NotSettled(i);
      }
      if fishes == 0 {
        BatchStops(fishes, draws, update, maxSteps, i + 1, shoals);
        return DivisionByZero;
      }
      proportions := proportions + [run.value.0 as real / fishes as real];
    }
    return Proportions(proportions);
  }

  /** Once a shoal has failed, the batch outcome stays that failure. */
  lemma {:induction false} BatchStops(fishes: nat,
                                      draws: seq<ShoalDraws>,
                                      update: (nat, seq<Agent>) -> Agent, maxSteps: nat, k: nat, n: nat)
    requires k <= n <= |draws|
    requires !BatchOf(fishes, draws, update, maxSteps, k).Proportions?
    ensures BatchOf(fishes, draws, update, maxSteps, n)
            == BatchOf(fishes, draws, update, maxSteps, k)
    decreases n - k
  {
    if k < n {
      BatchStops(fishes, draws, update, maxSteps, k, n - 1);
    }
  }
}
