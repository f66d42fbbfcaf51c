/**
 * One character record of character_data.json and the level-up rule of
 * character.py: the per-job stat increments, the record a new character
 * starts with, and the loop that spends banked experience on levels.
 */
module Progression {
  import opened Text
  import opened Leveling

  /** A stored character; the fields are the keys of the JSON record. */
  datatype Character = Character(
    name: string,
    job: string,
    level: int,
    experience: int,
    experienceToNextLevel: int,
    hp: int,
    mp: int,
    physicalAttack: int,
    magicalAttack: int,
    defense: int,
    hitRate: int)

  /** What one level adds to each stat. */
  datatype Increments = Increments(
    hp: int,
    mp: int,
    physicalAttack: int,
    magicalAttack: int,
    defense: int,
    hitRate: int)

  /** The jobs a new character may take (`valid_jobs`). */
  const VALID_JOBS: seq<string> := ["Warrior", "Mage", "Rogue"]

  /** JOB_STAT_INCREMENTS.get(job, default): an exact, case-sensitive lookup. */
  function JobIncrements(job: string): Increments {
    if job == "Warrior" then Increments(10, 5, 3, 1, 2, 1)
    else if job == "Mage" then Increments(5, 10, 1, 3, 1, 2)
    else if job == "Rogue" then Increments(7, 7, 2, 2, 2, 3)
    else Increments(5, 5, 1, 1, 1, 1)
  }

  /** The record create_new_character stores for a confirmed name and job. */
  function NewCharacter(name: string, job: string): Character {
    Character(name, job, 1, 0, Requirement(1), 100, 50, 10, 5, 5, 5)
  }

  /**
   * A record as the program's own operations leave it: its level is a key
   * of LEVELING_TABLE and experienceToNextLevel is that level's threshold.
   */
  predicate Consistent(c: Character) {
    1 <= c.level <= MAX_LEVEL && c.experienceToNextLevel == Requirement(c.level)
  }

  /** The loop condition of level_up: below the cap and enough experience banked. */
  predicate CanGain(c: Character)
    requires 1 <= c.level
  {
    c.level < MAX_LEVEL && c.experience >= Requirement(c.level)
  }

  /** One pass of the level_up loop body. */
  function Gain(c: Character): Character
    requires 1 <= c.level && CanGain(c)
  {
    var inc := JobIncrements(c.job);
    c.(level := c.level + 1,
       experience := c.experience - Requirement(c.level),
       experienceToNextLevel := Requirement(c.level + 1),
       hp := c.hp + inc.hp,
       mp := c.mp + inc.mp,
       physicalAttack := c.physicalAttack + inc.physicalAttack,
       magicalAttack := c.magicalAttack + inc.magicalAttack,
       defense := c.defense + inc.defense,
       hitRate := c.hitRate + inc.hitRate)
  }

  /** The record level_up writes back: Gain repeated while the loop condition holds. */
  function Climb(c: Character): Character
    requires 1 <= c.level
    decreases MAX_LEVEL - c.level
  {
    if CanGain(c) then Climb(Gain(c)) else c
  }

  /** The experience spent to go from level `lo` to level `hi`. */
  function ExperienceSpent(lo: int, hi: int): int
    requires 1 <= lo <= hi <= MAX_LEVEL
    decreases hi - lo
  {
    if lo < hi then Requirement(lo) + ExperienceSpent(lo + 1, hi) else 0
  }

  /**
   * The while loop of level_up on the active record, field by field as the
   * source updates it; `leveled` is the source's flag.
   */
  method Progress(c: Character) returns (r: Character, leveled: bool)
    requires 1 <= c.level
    ensures r == Climb(c)
    ensures leveled == (r.level > c.level)
  {
    r := c;
    leveled := false;
    while r.level < MAX_LEVEL
      invariant c.level <= r.level
      invariant Climb(r) == Climb(c)
      invariant leveled == (r.level > c.level)
      decreases MAX_LEVEL - r.level
    {
      var currentLevel := r.level;
      var requiredExp := Requirement(currentLevel);
      if r.experience < requiredExp {
        break;
      }
      r := r.(level := r.level + 1);
      r := r.(experience := r.experience - requiredExp);
      r := r.(experienceToNextLevel := Requirement(r.level));
      var inc := JobIncrements(r.job);
      r := r.(hp := r.hp + inc.hp);
      r := r.(mp := r.mp + inc.mp);
      r := r.(physicalAttack := r.physicalAttack + inc.physicalAttack);
      r := r.(magicalAttack := r.magicalAttack + inc.magicalAttack);
      r := r.(defense := r.defense + inc.defense);
      r := r.(hitRate := r.hitRate + inc.hitRate);
      leveled := true;
    }
  }

  // ----- what leveling promises -----

  /**
   * Levelling never lowers the level nor raises it past 40, and it stops only
   * at 40 or when the banked experience is below the current threshold.
   */
  lemma {:induction false} ClimbLevelBounds(c: Character)
    requires 1 <= c.level <= MAX_LEVEL
    ensures c.level <= Climb(c).level <= MAX_LEVEL
    ensures Climb(c).level == MAX_LEVEL || Climb(c).experience < Requirement(Climb(c).level)
    decreases MAX_LEVEL - c.level
  {
    if CanGain(c) {
      ClimbLevelBounds(Gain(c));
    }
  }

  /**
   * Each level gained costs exactly that level's threshold: the experience
   * left is the starting experience minus the thresholds of the levels passed.
   */
  lemma {:induction false} ClimbSpendsExperience(c: Character)
    requires 1 <= c.level <= MAX_LEVEL
    ensures c.level <= Climb(c).level <= MAX_LEVEL
    ensures Climb(c).experience == c.experience - ExperienceSpent(c.level, Climb(c).level)
    decreases MAX_LEVEL - c.level
  {
    if CanGain(c) {
      ClimbSpendsExperience(Gain(c));
    }
  }

  /** Experience that started non-negative stays non-negative. */
  lemma {:induction false} ClimbKeepsExperienceNonNegative(c: Character)
    requires 1 <= c.level && c.experience >= 0
    ensures Climb(c).experience >= 0
    decreases MAX_LEVEL - c.level
  {
    if CanGain(c) {
      ClimbKeepsExperienceNonNegative(Gain(c));
    }
  }

  /**
   * After k levels every stat has risen by exactly k times the job's
   * increment; name and job are untouched; after any gain the threshold
   * field shows the new level's threshold, and without one the record is
   * returned as it was.
   */
  lemma {:induction false} ClimbAddsIncrements(c: Character)
    requires 1 <= c.level
    ensures var r, k, inc := Climb(c), Climb(c).level - c.level, JobIncrements(c.job);
      && k >= 0
      && r.name == c.name && r.job == c.job
      && r.hp == c.hp + k * inc.hp
      && r.mp == c.mp + k * inc.mp
      && r.physicalAttack == c.physicalAttack + k * inc.physicalAttack
      && r.magicalAttack == c.magicalAttack + k * inc.magicalAttack
      && r.defense == c.defense + k * inc.defense
      && r.hitRate == c.hitRate + k * inc.hitRate
      && (k > 0 ==> 1 <= r.level <= MAX_LEVEL && r.experienceToNextLevel == Requirement(r.level))
      && (k == 0 ==> r == c)
    decreases MAX_LEVEL - c.level
  {
    if CanGain(c) {
      ClimbAddsIncrements(Gain(c));
    }
  }

  /** A consistent record stays consistent through level_up. */
  lemma ClimbPreservesConsistent(c: Character)
    requires Consistent(c)
    ensures Consistent(Climb(c))
  {
    ClimbLevelBounds(c);
    ClimbAddsIncrements(c);
  }

  /** Levelling again straight after levelling gains nothing: the loop's stop condition already holds. */
  lemma ClimbIdempotent(c: Character)
    requires 1 <= c.level <= MAX_LEVEL
    ensures 1 <= Climb(c).level
    ensures Climb(Climb(c)) == Climb(c)
  {
    ClimbLevelBounds(c);
  }

  /** The jobs as they read once lower-cased. */
  const JOB_SPELLINGS: seq<string> := ["warrior", "mage", "rogue"]

  lemma JobSpellings()
    ensures |JOB_SPELLINGS| == |VALID_JOBS|
    ensures forall i :: 0 <= i < |VALID_JOBS| ==> Lower(VALID_JOBS[i]) == JOB_SPELLINGS[i]
  {
    assert Lower("Warrior") == "warrior";
    assert Lower("Mage") == "mage";
    assert Lower("Rogue") == "rogue";
  }

  lemma JobCapitals()
    ensures |JOB_SPELLINGS| == |VALID_JOBS|
    ensures forall i :: 0 <= i < |VALID_JOBS| ==>
      |JOB_SPELLINGS[i]| > 0 && [UpperChar(JOB_SPELLINGS[i][0])] + JOB_SPELLINGS[i][1..] == VALID_JOBS[i]
  {
    assert [UpperChar('w')] + "warrior"[1..] == "Warrior";
    assert [UpperChar('m')] + "mage"[1..] == "Mage";
    assert [UpperChar('r')] + "rogue"[1..] == "Rogue";
  }

  /** A name that title-cases to a job spells that job in some mix of cases. */
  lemma SpellingOfTitledJob(job: string)
    requires Title(job) in VALID_JOBS
    ensures Lower(job) in JOB_SPELLINGS
  {
    var i :| 0 <= i < |VALID_JOBS| && VALID_JOBS[i] == Title(job);
    LowerOfTitle(job, false);
    JobSpellings();
    assert Lower(job) == JOB_SPELLINGS[i];
  }

  /** A name spelling a job in any mix of cases title-cases to that job. */
  lemma TitleOfJobSpelling(job: string)
    requires Lower(job) in JOB_SPELLINGS
    ensures Title(job) in VALID_JOBS
  {
    var w := Lower(job);
    var i :| 0 <= i < |JOB_SPELLINGS| && JOB_SPELLINGS[i] == w;
    JobCapitals();
    assert forall k :: 0 <= k < |job| ==> IsLetter(job[k]) by {
      forall k | 0 <= k < |job| ensures IsLetter(job[k]) {
        assert IsLetter(w[k]);
      }
    }
    TitleOfWord(job, false);
    assert Lower(job[1..]) == w[1..];
    assert UpperChar(job[0]) == UpperChar(w[0]);
    assert Title(job) == VALID_JOBS[i];
  }

  /** Title-casing accepts a job exactly when it spells Warrior, Mage or Rogue in any mix of cases. */
  lemma JobAccepted(job: string)
    ensures Title(job) in VALID_JOBS <==> Lower(job) in JOB_SPELLINGS
  {
    if Title(job) in VALID_JOBS {
      SpellingOfTitledJob(job);
    }
    if Lower(job) in JOB_SPELLINGS {
      TitleOfJobSpelling(job);
    }
  }
}
