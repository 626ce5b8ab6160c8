/**
 * The area/phase progression controller of a SuperShooter session
 * (GameMaster.StartNextArea in Assets/SuperShooter/Game/Scripts/GameMaster.cs)
 * and the wave spawner it drives (EnemyManager, whose internals are not part
 * of this model).
 *
 * `NextArea` gives what one StartNextArea call does to the two counters;
 * the class `GameMaster` does it in place and configures the spawner; the
 * lemmas follow the counters over many calls.
 */
module Progression {

  /** A spawn point's transform: where the spawner may place an enemy. */
  datatype Anchor = Anchor(id: nat)

  /** The configuration the spawner holds when a wave starts. */
  datatype WaveConfig = WaveConfig(
    spawnPoints: seq<Anchor>,
    healthMultiplier: int,
    damageMultiplier: int,
    xpMultiplier: int)

  /** A call the controller makes on the spawner, as recorded in the spawner's log. */
  datatype SpawnerCall = ResetCall | StartNextWaveCall(config: WaveConfig)

  /** The session's counters: completed cycles through the areas, and the current area (0 = tutorial). */
  datatype Progress = Progress(gamePhase: int, currentArea: int)

  /** What one StartNextArea call did, with the counters it left. */
  datatype Advance =
    | PhaseAdvanced(after: Progress)
    | AreaStarted(after: Progress)
    | AreaOutOfRange(after: Progress)  // the area lookup threw; the area counter was already bumped

  /**
   * One StartNextArea call with `areaCount` play areas. When the current area
   * equals the number of areas the phase goes up and nothing else happens.
   * Otherwise the area counter goes up first and the new area is looked up;
   * the lookup is in range only below `areaCount`, so area 0 is never started
   * from a non-negative area and stepping from the last index throws.
   */
  function NextArea(p: Progress, areaCount: nat): (r: Advance)
    ensures r.after.gamePhase >= p.gamePhase && r.after.currentArea >= p.currentArea
    ensures r.PhaseAdvanced? <==> p.currentArea == areaCount
    ensures r.PhaseAdvanced? ==> r.after == Progress(p.gamePhase + 1, p.currentArea)
    ensures !r.PhaseAdvanced? ==> r.after == Progress(p.gamePhase, p.currentArea + 1)
    ensures r.AreaStarted? <==> p.currentArea != areaCount && 0 <= p.currentArea + 1 < areaCount
    ensures r.AreaStarted? ==> 0 <= r.after.currentArea < areaCount
    ensures r.AreaStarted? && 0 <= p.currentArea ==> r.after.currentArea != 0
    ensures 0 <= p.currentArea <= areaCount ==> 0 <= r.after.currentArea <= areaCount
  {
    if p.currentArea == areaCount then
      PhaseAdvanced(p.(gamePhase := p.gamePhase + 1))
    else
      var next := p.(currentArea := p.currentArea + 1);
      if 0 <= next.currentArea < areaCount then AreaStarted(next) else AreaOutOfRange(next)
  }

  /** The counters after `n` calls of StartNextArea, a thrown lookup included. */
  function Calls(p: Progress, areaCount: nat, n: nat): (r: Progress)
    ensures r.gamePhase >= p.gamePhase && r.currentArea >= p.currentArea
    ensures r.gamePhase + r.currentArea == p.gamePhase + p.currentArea + n
    ensures 0 <= p.currentArea <= areaCount ==> 0 <= r.currentArea <= areaCount
    decreases n
  {
    if n == 0 then p else Calls(NextArea(p, areaCount).after, areaCount, n - 1)
  }

  /** The areas started by `n` calls of StartNextArea, in the order they were started. */
  function Started(p: Progress, areaCount: nat, n: nat): seq<int>
    decreases n
  {
    if n == 0 then []
    else
      var step := NextArea(p, areaCount);
      (if step.AreaStarted? then [step.after.currentArea] else []) + Started(step.after, areaCount, n - 1)
  }

  /**
   * From any area, the remaining areas are used up, and from then on every
   * call only raises the phase: the area counter is never set back.
   */
  lemma {:induction false} AreasRunOutThenOnlyPhasesAdvance(p: Progress, areaCount: nat, k: nat)
    requires 0 <= p.currentArea <= areaCount
    ensures Calls(p, areaCount, areaCount - p.currentArea + k) == Progress(p.gamePhase + k, areaCount)
    decreases areaCount - p.currentArea, k
  {
    if p.currentArea < areaCount {
      var next := NextArea(p, areaCount).after;
      assert next == Progress(p.gamePhase, p.currentArea + 1);
      AreasRunOutThenOnlyPhasesAdvance(next, areaCount, k);
    } else if k > 0 {
      var next := NextArea(p, areaCount).after;
      assert next == Progress(p.gamePhase + 1, areaCount);
      AreasRunOutThenOnlyPhasesAdvance(next, areaCount, k - 1);
    }
  }

  /**
   * Starting from area `a` below the last index, the calls that use up the
   * areas start areas a + 1, a + 2, ..., areaCount - 1 in order; the last of
   * those calls throws instead of starting area `areaCount`.
   */
  lemma {:induction false} AreasStartInOrder(p: Progress, areaCount: nat)
    requires 0 <= p.currentArea < areaCount
    ensures Started(p, areaCount, areaCount - p.currentArea)
         == seq(areaCount - p.currentArea - 1, i => p.currentArea + 1 + i)
    decreases areaCount - p.currentArea
  {
    var step := NextArea(p, areaCount);
    var a := p.currentArea;
    if a + 1 == areaCount {
      assert step.AreaOutOfRange?;
      assert Started(step.after, areaCount, 0) == [];
    } else {
      assert step.AreaStarted? && step.after.currentArea == a + 1;
      AreasStartInOrder(step.after, areaCount);
      var rest := seq(areaCount - a - 2, i => a + 2 + i);
      assert Started(p, areaCount, areaCount - a) == [a + 1] + rest;
      assert [a + 1] + rest == seq(areaCount - a - 1, i => a + 1 + i);
    }
  }

  /** The wave spawner: only the configuration the controller writes and a log of the calls it makes. */
  class EnemyManager {
    var spawnPoints: seq<Anchor>
    var currentHealthMultiplier: int
    var currentDamageMultiplier: int
    var currentXPRewardMultiplier: int
    /** Every Reset and StartNextWave call made on this spawner, oldest first. */
    ghost var calls: seq<SpawnerCall>

    function Config(): WaveConfig
      reads this
    {
      WaveConfig(spawnPoints, currentHealthMultiplier, currentDamageMultiplier, currentXPRewardMultiplier)
    }

    /** A spawner with the given configuration and no calls made yet. */
    constructor (config: WaveConfig)
      ensures Config() == config && calls == []
    {
      spawnPoints := config.spawnPoints;
      currentHealthMultiplier := config.healthMultiplier;
      currentDamageMultiplier := config.damageMultiplier;
      currentXPRewardMultiplier := config.xpMultiplier;
      calls := [];
    }

    /** Clears the spawner's own bookkeeping; what that does to its configuration is left open. */
    method Reset()
      modifies this
      ensures calls == old(calls) + [ResetCall]
    {
      calls := calls + [ResetCall];
    }

    /** Starts a wave with the configuration the spawner holds now. */
    method StartNextWave()
      modifies this`calls
      ensures calls == old(calls) + [StartNextWaveCall(Config())]
    {
      calls := calls + [StartNextWaveCall(Config())];
    }
  }

  class GameMaster {
    var gamePhase: int
    var currentArea: int
    /** Each play area given directly as its spawn points' anchors, in order. */
    var playAreas: seq<seq<Anchor>>
    var waveSpawner: EnemyManager

    function Counters(): Progress
      reads this
    {
      Progress(gamePhase, currentArea)
    }

    /** The current area is the tutorial, a play area, or one past the last. */
    predicate Valid()
      reads this
    {
      0 <= currentArea <= |playAreas|
    }

    /** A session at phase 1 in the tutorial area. */
    constructor (playAreas: seq<seq<Anchor>>, waveSpawner: EnemyManager)
      ensures Counters() == Progress(1, 0) && Valid()
      ensures this.playAreas == playAreas && this.waveSpawner == waveSpawner
    {
      gamePhase := 1;
      currentArea := 0;
      this.playAreas := playAreas;
      this.waveSpawner := waveSpawner;
    }

    /**
     * Advances to the next phase or the next area. `outOfRange` stands for
     * the index-out-of-range exception of the area lookup: the area counter
     * has then been bumped and the spawner not touched. When an area starts,
     * the spawner is reset, given that area's anchors and the phase as all
     * three multipliers, and told to start a wave with exactly that
     * configuration.
     */
    method StartNextArea() returns (outOfRange: bool)
      modifies this`gamePhase, this`currentArea, waveSpawner
      ensures Counters() == NextArea(old(Counters()), |playAreas|).after
      ensures outOfRange <==> NextArea(old(Counters()), |playAreas|).AreaOutOfRange?
      ensures old(Valid()) ==> Valid()
      ensures NextArea(old(Counters()), |playAreas|).AreaStarted? ==>
        && waveSpawner.Config() == WaveConfig(playAreas[currentArea], gamePhase, gamePhase, gamePhase)
        && waveSpawner.calls == old(waveSpawner.calls) + [ResetCall, StartNextWaveCall(waveSpawner.Config())]
      ensures !NextArea(old(Counters()), |playAreas|).AreaStarted? ==> unchanged(waveSpawner)
    {
      outOfRange := false;
      if currentArea == |playAreas| {
        gamePhase := gamePhase + 1;
        return;
      }
      currentArea := currentArea + 1;
      if !(0 <= currentArea < |playAreas|) {
        outOfRange := true;
        return;
      }
      var spawnPoints := playAreas[currentArea];
      waveSpawner.Reset();
      waveSpawner.spawnPoints := spawnPoints;
      waveSpawner.currentHealthMultiplier := gamePhase;
      waveSpawner.currentDamageMultiplier := gamePhase;
      waveSpawner.currentXPRewardMultiplier := gamePhase;
      waveSpawner.StartNextWave();
    }
  }

  /** Three play areas: starting area 2 from area 1, then the end of the list raises the phase. */
  method ProgressionScenario()
  {
    var area0, area1, area2 := [Anchor(0)], [Anchor(1), Anchor(2)], [Anchor(3), Anchor(4), Anchor(5)];
    var spawner := new EnemyManager(WaveConfig([], 1, 1, 1));
    var gm := new GameMaster([area0, area1, area2], spawner);
    gm.currentArea := 1;
    var thrown := gm.StartNextArea();
    assert !thrown && gm.Counters() == Progress(1, 2);
    assert spawner.Config() == WaveConfig(area2, 1, 1, 1);
    assert spawner.calls == [ResetCall, StartNextWaveCall(WaveConfig(area2, 1, 1, 1))];
    thrown := gm.StartNextArea();
    assert thrown && gm.Counters() == Progress(1, 3);
    thrown := gm.StartNextArea();
    assert !thrown && gm.Counters() == Progress(2, 3);
    assert spawner.calls == [ResetCall, StartNextWaveCall(WaveConfig(area2, 1, 1, 1))];
  }
}
