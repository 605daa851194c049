/** The control panel's experience and level state: experience points are
    added, a level is gained when the points reach the current threshold,
    the threshold then grows by half (truncated), and the title follows the
    level. The panel's screens, prompts and pauses are not part of it. */
module Control {

  /** The player's progress as a value. */
  datatype Progress = Progress(level: int, xp: int, xpToNextLevel: int, title: string)

  const NoviceTitle := "Novice Trader"
  const ApprenticeTitle := "Apprentice Chartist"
  const MarketMakerTitle := "Market Maker"
  const WhaleTitle := "Whale"

  /** `update_title`'s table: below level 5 a novice, below 10 an apprentice
      chartist, below 20 a market maker, then a whale. */
  function TitleFor(level: int): string
  {
    if level < 5 then NoviceTitle
    else if level < 10 then ApprenticeTitle
    else if level < 20 then MarketMakerTitle
    else WhaleTitle
  }

  /** The order of the titles. */
  function TitleRank(title: string): nat
  {
    if title == NoviceTitle then 0
    else if title == ApprenticeTitle then 1
    else if title == MarketMakerTitle then 2
    else 3
  }

  /** A higher level never carries a lower title. */
  lemma TitleNeverDemotes(a: int, b: int)
    requires a <= b
    ensures TitleRank(TitleFor(a)) <= TitleRank(TitleFor(b))
  {
  }

  /** `int(t * 1.5)`: half again, truncated toward zero. */
  function GrownThreshold(t: int): (r: int)
    ensures t >= 0 ==> 2 * r <= 3 * t < 2 * r + 2
    ensures t < 0 ==> 2 * r - 2 < 3 * t <= 2 * r
  {
    if t >= 0 then (3 * t) / 2 else -((3 * -t) / 2)
  }

  /** The threshold in force at each level, starting from 100 at level 1. */
  function Threshold(level: int): (r: int)
    requires level >= 1
    ensures r >= 100
  {
    if level == 1 then 100 else GrownThreshold(Threshold(level - 1))
  }

  /** The thresholds of the first levels: 100, 150, 225, 337, 505. */
  lemma ThresholdValues()
    ensures Threshold(2) == 150 && Threshold(3) == 225 && Threshold(4) == 337 && Threshold(5) == 505
  {
  }

  /** Each level asks for more experience than the one before. */
  lemma ThresholdGrows(level: int)
    requires level >= 1
    ensures Threshold(level + 1) > Threshold(level)
  {
  }

  const Initial := Progress(1, 0, 100, NoviceTitle)

  /** The relation every reachable state keeps between its fields. */
  predicate Consistent(p: Progress)
  {
    p.level >= 1 && p.xpToNextLevel == Threshold(p.level) && p.title == TitleFor(p.level)
  }

  /** `level_up`: one level more, the threshold paid out of the experience,
      the threshold grown and the title re-derived. */
  function Promoted(p: Progress): (r: Progress)
    ensures r.level == p.level + 1
    ensures r.xp + p.xpToNextLevel == p.xp
    ensures Consistent(p) ==> Consistent(r)
  {
    Progress(p.level + 1, p.xp - p.xpToNextLevel, GrownThreshold(p.xpToNextLevel), TitleFor(p.level + 1))
  }

  /** `add_xp`: the amount added, then at most one level gained, and only
      when the experience has reached the threshold. */
  function Gained(p: Progress, amount: int): (r: Progress)
    ensures p.xp + amount >= p.xpToNextLevel ==> r.level == p.level + 1 && r.xp == p.xp + amount - p.xpToNextLevel
    ensures p.xp + amount < p.xpToNextLevel ==> r.level == p.level && r.xp == p.xp + amount
    ensures Consistent(p) ==> Consistent(r)
  {
    var q := p.(xp := p.xp + amount);
    if q.xp >= q.xpToNextLevel then Promoted(q) else q
  }

  lemma InitialConsistent()
    ensures Consistent(Initial)
  {
  }

  /** One call levels up at most once: 400 points from the start reach level
      2 with 300 points left, already past the new threshold of 150. */
  lemma OneLevelPerCall()
    ensures Gained(Initial, 400) == Progress(2, 300, 150, NoviceTitle)
    ensures Gained(Initial, 400).xp >= Gained(Initial, 400).xpToNextLevel
  {
  }

  /** Reaching level 5 changes the title to apprentice chartist. */
  lemma FifthLevelTitle(p: Progress)
    requires Consistent(p) && p.level == 4 && p.xp >= 0
    ensures Gained(p, p.xpToNextLevel).title == ApprenticeTitle
  {
  }

  /** `GameState`: the progress fields, plus the profit and session counters
      the panel keeps beside them. */
  class GameState {
    var level: int
    var xp: int
    var xpToNextLevel: int
    var totalProfits: real
    var sessionsRun: int
    var title: string

    function Snapshot(): Progress
      reads this
    {
      Progress(level, xp, xpToNextLevel, title)
    }

    constructor()
      ensures Snapshot() == Initial && Consistent(Snapshot())
      ensures totalProfits == 0.0 && sessionsRun == 0
    {
      level := 1;
      xp := 0;
      xpToNextLevel := 100;
      totalProfits := 0.0;
      sessionsRun := 0;
      title := NoviceTitle;
    }

    method AddXp(amount: int)
      modifies this
      ensures Snapshot() == Gained(old(Snapshot()), amount)
      ensures old(Consistent(Snapshot())) ==> Consistent(Snapshot())
      ensures totalProfits == old(totalProfits) && sessionsRun == old(sessionsRun)
    {
      xp := xp + amount;
      if xp >= xpToNextLevel {
        LevelUp();
      }
    }

    method LevelUp()
      modifies this
      ensures Snapshot() == Promoted(old(Snapshot()))
      ensures totalProfits == old(totalProfits) && sessionsRun == old(sessionsRun)
    {
      level := level + 1;
      xp := xp - xpToNextLevel;
      xpToNextLevel := GrownThreshold(xpToNextLevel);
      UpdateTitle();
    }

    method UpdateTitle()
      modifies this
      ensures Snapshot() == old(Snapshot()).(title := TitleFor(level))
      ensures level == old(level) && totalProfits == old(totalProfits) && sessionsRun == old(sessionsRun)
    {
      if level < 5 {
        title := NoviceTitle;
      } else if level < 10 {
        title := ApprenticeTitle;
      } else if level < 20 {
        title := MarketMakerTitle;
      } else {
        title := WhaleTitle;
      }
    }
  }
}
