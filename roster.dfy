/**
 * The character list of character_data.json as a value, and what each
 * operation of character.py does to it: the case-insensitive name search,
 * the write-back of the active record, creation, rename, experience and
 * level-up.
 */
module Roster {
  import opened Wrappers
  import opened Text
  import opened Leveling
  import opened Progression

  /** What an operation reports; each case is one of the messages it prints. */
  datatype Outcome =
    | Created(name: string)
    | Cancelled
    | DuplicateName
    | InvalidJob
    | NoActiveCharacter
    | Renamed
    | ExperienceAdded
    | LeveledUp
    | NotEnoughExperience

  /** `any(char["name"].lower() == name.lower() for char in data)` */
  predicate NameTaken(data: seq<Character>, name: string) {
    exists i :: 0 <= i < |data| && SameName(data[i].name, name)
  }

  /** The index of the first record whose name equals `name` case-insensitively. */
  function FirstMatch(data: seq<Character>, name: string): (r: Option<nat>)
    ensures r.Some? ==> r.value < |data| && SameName(data[r.value].name, name)
    ensures r.Some? ==> forall j :: 0 <= j < r.value ==> !SameName(data[j].name, name)
    ensures r.None? ==> forall j :: 0 <= j < |data| ==> !SameName(data[j].name, name)
  {
    if data == [] then None
    else if SameName(data[0].name, name) then Some(0)
    else match FirstMatch(data[1..], name)
      case None => None
      case Some(i) => Some(i + 1)
  }

  /** get_active_character: the first record under `name`, or None. */
  function Lookup(data: seq<Character>, name: string): Option<Character> {
    match FirstMatch(data, name)
    case None => None
    case Some(i) => Some(data[i])
  }

  /**
   * update_active_character: the first record whose name matches the
   * updated record's name is replaced by it; with no match the list is
   * written back as it was.
   */
  function Replace(data: seq<Character>, updated: Character): seq<Character> {
    match FirstMatch(data, updated.name)
    case None => data
    case Some(i) => data[i := updated]
  }

  /** Names are unique up to case. */
  predicate NamesDistinct(data: seq<Character>) {
    forall i, j :: 0 <= i < j < |data| ==> !SameName(data[i].name, data[j].name)
  }

  /** What the program's own operations keep true of the stored list. */
  predicate WellFormed(data: seq<Character>) {
    (forall i :: 0 <= i < |data| ==> Consistent(data[i])) && NamesDistinct(data)
  }

  /**
   * create_new_character with the name and job answered: the name `back`
   * cancels, a taken name is refused, the job is title-cased and then
   * `back` cancels and anything but Warrior, Mage or Rogue is refused;
   * otherwise the new record goes at the end of the list.
   */
  function Create(data: seq<Character>, name: string, job: string): (Outcome, seq<Character>) {
    if Lower(name) == "back" then (Cancelled, data)
    else if NameTaken(data, name) then (DuplicateName, data)
    else
      var title := Title(job);
      if Lower(title) == "back" then (Cancelled, data)
      else if title !in VALID_JOBS then (InvalidJob, data)
      else (Created(name), data + [NewCharacter(name, title)])
  }

  /**
   * update_character_name with the new name and the confirmation answered.
   * The renamed record is written back by update_active_character, which
   * searches for the NEW name; the result is the outcome, the list written
   * back and the active name afterwards.
   */
  function Rename(data: seq<Character>, active: string, newName: string, confirmed: bool)
    : (Outcome, seq<Character>, string)
  {
    match Lookup(data, active)
    case None => (NoActiveCharacter, data, active)
    case Some(c) =>
      if !confirmed then (Cancelled, data, active)
      else if NameTaken(data, newName) then (DuplicateName, data, active)
      else (Renamed, Replace(data, c.(name := newName)), newName)
  }

  /** add_experience: any amount, negative ones included, is added to the active record. */
  function AddExperience(data: seq<Character>, active: string, expPoints: int): (Outcome, seq<Character>) {
    match Lookup(data, active)
    case None => (NoActiveCharacter, data)
    case Some(c) => (ExperienceAdded, Replace(data, c.(experience := c.experience + expPoints)))
  }

  /** What level_up needs of the list: a level below 1 has no entry in LEVELING_TABLE. */
  predicate LevelsPositive(data: seq<Character>) {
    forall i :: 0 <= i < |data| ==> 1 <= data[i].level
  }

  /** level_up: the active record climbs as far as its experience allows and is written back. */
  function LevelUp(data: seq<Character>, active: string): (Outcome, seq<Character>)
    requires LevelsPositive(data)
  {
    match Lookup(data, active)
    case None => (NoActiveCharacter, data)
    case Some(c) =>
      var r := Climb(c);
      (if r.level > c.level then LeveledUp else NotEnoughExperience, Replace(data, r))
  }

  // ----- lookup and write-back -----

  /** The duplicate check and the search agree: a name is taken exactly when a lookup finds it. */
  lemma NameTakenIffFound(data: seq<Character>, name: string)
    ensures NameTaken(data, name) <==> Lookup(data, name).Some?
  {
    if NameTaken(data, name) {
      var i :| 0 <= i < |data| && SameName(data[i].name, name);
      assert FirstMatch(data, name).Some?;
    }
  }

  /** The lookup returns the first record whose name matches, and None exactly when none does. */
  lemma LookupFindsFirst(data: seq<Character>, name: string)
    ensures Lookup(data, name).None? <==> forall j :: 0 <= j < |data| ==> !SameName(data[j].name, name)
    ensures Lookup(data, name).Some? ==>
      exists i :: (0 <= i < |data| && Lookup(data, name) == Some(data[i]) && SameName(data[i].name, name)
                   && forall j :: 0 <= j < i ==> !SameName(data[j].name, name))
  {
    match FirstMatch(data, name)
    case None =>
    case Some(i) =>
      assert Lookup(data, name) == Some(data[i]);
  }

  /**
   * The write-back keeps the length, puts the updated record at the first
   * index whose name matches and nowhere else, and leaves the list as it was
   * when no name matches.
   */
  lemma ReplaceOnlyFirstMatch(data: seq<Character>, updated: Character)
    ensures |Replace(data, updated)| == |data|
    ensures !NameTaken(data, updated.name) ==> Replace(data, updated) == data
    ensures forall i :: FirstMatch(data, updated.name) == Some(i) ==>
      Replace(data, updated)[i] == updated
      && forall j :: 0 <= j < |data| && j != i ==> Replace(data, updated)[j] == data[j]
  {
    NameTakenIffFound(data, updated.name);
  }

  /** Writing back a record under the name it was found by replaces exactly that record. */
  lemma ReplaceFound(data: seq<Character>, name: string, c: Character)
    requires FirstMatch(data, name).Some?
    requires SameName(c.name, name)
    ensures Replace(data, c) == data[FirstMatch(data, name).value := c]
  {
    var i := FirstMatch(data, name).value;
    var k := FirstMatch(data, c.name);
    assert k.Some? by {
      assert SameName(data[i].name, c.name);
    }
  }

  /** Writing back the looked-up record itself changes nothing. */
  lemma WriteBackUnchanged(data: seq<Character>, name: string)
    requires Lookup(data, name).Some?
    ensures Replace(data, Lookup(data, name).value) == data
  {
    var i := FirstMatch(data, name).value;
    ReplaceFound(data, name, data[i]);
  }

  /** A write-back of a consistent record under a matching name keeps the list well formed. */
  lemma ReplaceKeepsWellFormed(data: seq<Character>, updated: Character)
    requires WellFormed(data) && Consistent(updated)
    ensures WellFormed(Replace(data, updated))
  {
    match FirstMatch(data, updated.name)
    case None =>
    case Some(i) =>
      var r := data[i := updated];
      forall a, b | 0 <= a < b < |r| ensures !SameName(r[a].name, r[b].name) {
        if a == i {
          assert SameName(r[a].name, data[a].name);
        } else if b == i {
          assert SameName(r[b].name, data[b].name);
        }
      }
  }

  // ----- creation -----

  /**
   * Creation succeeds exactly when the name is not `back`, no stored name
   * matches it case-insensitively, and the job spells Warrior, Mage or Rogue
   * in any mix of cases; the new record is appended with level 1, no
   * experience, the first threshold and the base stats, and nothing before it
   * changes. Every refusal leaves the list as it was.
   */
  lemma CreateAppends(data: seq<Character>, name: string, job: string)
    ensures var (outcome, after) := Create(data, name, job);
      && (outcome.Created? <==>
            Lower(name) != "back" && !NameTaken(data, name) && Lower(job) in JOB_SPELLINGS)
      && (outcome.Created? ==>
            && outcome.name == name
            && |after| == |data| + 1 && after[..|data|] == data
            && var c := after[|data|];
               && c.name == name && c.job == Title(job) && c.job in VALID_JOBS
               && c.level == 1 && c.experience == 0 && c.experienceToNextLevel == 1000
               && c.hp == 100 && c.mp == 50 && c.physicalAttack == 10
               && c.magicalAttack == 5 && c.defense == 5 && c.hitRate == 5)
      && (!outcome.Created? ==> after == data)
  {
    JobAccepted(job);
    LowerOfTitle(job, false);
    FirstRequirements();
    JobSpellingsAreNotBack();
  }

  lemma JobSpellingsAreNotBack()
    ensures "back" !in JOB_SPELLINGS
  {
  }

  /** A name already taken, in any case, is refused whatever the job (unless it is `back`, which cancels). */
  lemma CreateRefusesTakenName(data: seq<Character>, name: string, job: string, i: int)
    requires 0 <= i < |data| && SameName(data[i].name, name)
    ensures Create(data, name, job).0 == (if Lower(name) == "back" then Cancelled else DuplicateName)
    ensures Create(data, name, job).1 == data
  {
  }

  /**
   * The two other refusals: the job is refused exactly when the name passes
   * and the job, title-cased, is neither `back` nor one of the three jobs;
   * creation is cancelled exactly when `back` is typed as the name, or as the
   * job after a free name.
   */
  lemma CreateRefusals(data: seq<Character>, name: string, job: string)
    ensures Create(data, name, job).0 == InvalidJob <==>
      Lower(name) != "back" && !NameTaken(data, name) && Lower(job) != "back" && Lower(job) !in JOB_SPELLINGS
    ensures Create(data, name, job).0 == Cancelled <==>
      Lower(name) == "back" || (!NameTaken(data, name) && Lower(job) == "back")
  {
    JobAccepted(job);
    LowerOfTitle(job, false);
    JobSpellingsAreNotBack();
  }

  /** Creation keeps names unique up to case and every record consistent. */
  lemma CreateKeepsWellFormed(data: seq<Character>, name: string, job: string)
    requires WellFormed(data)
    ensures WellFormed(Create(data, name, job).1)
  {
    var (outcome, after) := Create(data, name, job);
    if outcome.Created? {
      FirstRequirements();
      forall a, b | 0 <= a < b < |after| ensures !SameName(after[a].name, after[b].name) {
        if b == |data| {
          assert after[a] == data[a];
        }
      }
    }
  }

  // ----- rename -----

  /**
   * Rename never changes the stored list: when accepted, the write-back
   * searches for the new name, which no record carries. The active name
   * becomes the new name exactly when the rename is accepted, and it is
   * accepted exactly when there is an active record, the change is
   * confirmed and no stored name matches the new one.
   */
  lemma RenameKeepsStore(data: seq<Character>, active: string, newName: string, confirmed: bool)
    ensures var (outcome, after, activeAfter) := Rename(data, active, newName, confirmed);
      && after == data
      && (outcome == Renamed <==>
            Lookup(data, active).Some? && confirmed && !NameTaken(data, newName))
      && activeAfter == (if outcome == Renamed then newName else active)
      && (Lookup(data, active).None? ==> outcome == NoActiveCharacter)
  {
    match Lookup(data, active)
    case None =>
    case Some(c) =>
      if confirmed && !NameTaken(data, newName) {
        ReplaceOnlyFirstMatch(data, c.(name := newName));
      }
  }

  /** Renaming to the record's own name, in any case, is refused as a duplicate. */
  lemma RenameRefusesOwnName(data: seq<Character>, active: string, newName: string)
    requires Lookup(data, active).Some?
    requires SameName(newName, Lookup(data, active).value.name)
    ensures Rename(data, active, newName, true).0 == DuplicateName
    ensures Rename(data, active, newName, true).2 == active
  {
    var i := FirstMatch(data, active).value;
    assert SameName(data[i].name, newName);
  }

  /**
   * After an accepted rename the active name finds no record, so the
   * following experience and level-up requests report no active character,
   * while the record stays under its old name.
   */
  lemma RenameOrphansActiveName(data: seq<Character>, active: string, newName: string, exp: int)
    requires Rename(data, active, newName, true).0 == Renamed
    ensures var (_, after, activeAfter) := Rename(data, active, newName, true);
      && Lookup(after, activeAfter).None?
      && Lookup(after, active) == Lookup(data, active)
      && AddExperience(after, activeAfter, exp) == (NoActiveCharacter, data)
  {
    RenameKeepsStore(data, active, newName, true);
    NameTakenIffFound(data, newName);
  }

  /** A rename that is not confirmed is cancelled and changes nothing. */
  lemma RenameUnconfirmed(data: seq<Character>, active: string, newName: string)
    requires Lookup(data, active).Some?
    ensures Rename(data, active, newName, false) == (Cancelled, data, active)
  {
  }

  /** Refusing a rename whose new name is taken keeps the store and the active name. */
  lemma RenameRefusesTakenName(data: seq<Character>, active: string, newName: string, i: int)
    requires Lookup(data, active).Some?
    requires 0 <= i < |data| && SameName(data[i].name, newName)
    ensures Rename(data, active, newName, true) == (DuplicateName, data, active)
  {
  }

  // ----- experience -----

  /**
   * add_experience changes exactly the active record's experience, by
   * exactly the amount given (negative amounts too); nothing else in the list
   * changes, and without an active record nothing changes at all.
   */
  lemma AddExperienceEffect(data: seq<Character>, active: string, expPoints: int)
    ensures var (outcome, after) := AddExperience(data, active, expPoints);
      match FirstMatch(data, active)
      case None => outcome == NoActiveCharacter && after == data
      case Some(i) =>
        outcome == ExperienceAdded
        && after == data[i := data[i].(experience := data[i].experience + expPoints)]
  {
    match FirstMatch(data, active)
    case None =>
    case Some(i) =>
      ReplaceFound(data, active, data[i].(experience := data[i].experience + expPoints));
  }

  /** Adding experience keeps the list well formed: only the experience changes. */
  lemma AddExperienceKeepsWellFormed(data: seq<Character>, active: string, expPoints: int)
    requires WellFormed(data)
    ensures WellFormed(AddExperience(data, active, expPoints).1)
  {
    match Lookup(data, active)
    case None =>
    case Some(c) =>
      assert c in data;
      ReplaceKeepsWellFormed(data, c.(experience := c.experience + expPoints));
  }

  /** A negative amount is applied, not rejected: experience can drop below zero. */
  lemma NegativeExperienceApplied()
    ensures var data := [NewCharacter("Aria", "Mage")];
      AddExperience(data, "aria", -1) == (ExperienceAdded, [NewCharacter("Aria", "Mage").(experience := -1)])
  {
    var data := [NewCharacter("Aria", "Mage")];
    assert Lower("Aria") == "aria" && Lower("aria") == "aria";
    assert FirstMatch(data, "aria") == Some(0);
    AddExperienceEffect(data, "aria", -1);
    assert data[0 := data[0].(experience := data[0].experience - 1)] == [NewCharacter("Aria", "Mage").(experience := -1)];
  }

  // ----- level-up -----

  /**
   * level_up replaces exactly the active record by its climbed version and
   * reports a level-up exactly when a level was gained; with no gain the list
   * is written back unchanged, and without an active record nothing changes.
   */
  lemma LevelUpEffect(data: seq<Character>, active: string)
    requires LevelsPositive(data)
    ensures var (outcome, after) := LevelUp(data, active);
      match FirstMatch(data, active)
      case None => outcome == NoActiveCharacter && after == data
      case Some(i) =>
        && after == data[i := Climb(data[i])]
        && (outcome == LeveledUp <==> Climb(data[i]).level > data[i].level)
        && (outcome == NotEnoughExperience ==> after == data)
  {
    match FirstMatch(data, active)
    case None =>
    case Some(i) =>
      ClimbAddsIncrements(data[i]);
      ReplaceFound(data, active, Climb(data[i]));
  }

  /** Levelling keeps the list well formed. */
  lemma LevelUpKeepsWellFormed(data: seq<Character>, active: string)
    requires WellFormed(data)
    ensures WellFormed(LevelUp(data, active).1)
  {
    match Lookup(data, active)
    case None =>
    case Some(c) =>
      assert c in data;
      ClimbPreservesConsistent(c);
      ReplaceKeepsWellFormed(data, Climb(c));
  }

  /**
   * A second level_up straight after the first changes nothing: the climbed
   * record is found again at the same place and cannot gain another level.
   */
  lemma LevelUpIdempotent(data: seq<Character>, active: string)
    requires WellFormed(data)
    ensures var (_, after) := LevelUp(data, active);
      LevelsPositive(after) && LevelUp(after, active).1 == after
  {
    LevelUpKeepsWellFormed(data, active);
    var (_, after) := LevelUp(data, active);
    LevelUpEffect(data, active);
    match FirstMatch(data, active)
    case None =>
      LevelUpEffect(after, active);
    case Some(i) =>
      ClimbLevelBounds(data[i]);
      ClimbAddsIncrements(data[i]);
      ClimbIdempotent(data[i]);
      assert after == data[i := Climb(data[i])];
      assert FirstMatch(after, active) == Some(i) by {
        assert forall j :: 0 <= j < i ==> after[j] == data[j];
        assert after[i].name == data[i].name;
      }
      LevelUpEffect(after, active);
  }

  // ----- a session -----

  /**
   * A Mage named Aria starts at level 1; 1000 experience is exactly the first
   * threshold, so one level-up takes her to level 2 with nothing left over,
   * the Mage increments added once and the second threshold, 1200, shown.
   */
  lemma MageSession()
    ensures var (o1, d1) := Create([], "Aria", "mage");
      var (o2, d2) := AddExperience(d1, "Aria", 1000);
      var (o3, d3) := LevelUp(d2, "Aria");
      && o1 == Created("Aria") && o2 == ExperienceAdded && o3 == LeveledUp
      && d3 == [Character("Aria", "Mage", 2, 0, 1200, 105, 60, 11, 8, 6, 7)]
  {
    JobAccepted("mage");
    JobSpellings();
    FirstRequirements();
    assert Lower("Aria") == "aria";
    assert Lower("mage") == "mage";
    assert Title("mage") == "Mage";
    assert Lower("Mage") == "mage";
    assert "aria" != "back" && "mage" != "back";
    assert !NameTaken([], "Aria");
    var c := NewCharacter("Aria", "Mage");
    var d1 := [c];
    assert Title("mage") in VALID_JOBS;
    assert Lower(Title("mage")) != "back";
    assert [] + [c] == d1;
    assert Create([], "Aria", "mage") == (Created("Aria"), d1);
    assert FirstMatch(d1, "Aria") == Some(0);
    var c2 := c.(experience := 1000);
    AddExperienceEffect(d1, "Aria", 1000);
    assert d1[0 := d1[0].(experience := d1[0].experience + 1000)] == [c2];
    assert AddExperience(d1, "Aria", 1000) == (ExperienceAdded, [c2]);
    assert WellFormed([c2]);
    assert FirstMatch([c2], "Aria") == Some(0);
    assert CanGain(c2);
    var c3 := Gain(c2);
    assert c3 == Character("Aria", "Mage", 2, 0, 1200, 105, 60, 11, 8, 6, 7);
    assert !CanGain(c3);
    LevelUpEffect([c2], "Aria");
  }

  /** With 500 experience against a threshold of 1000, level_up reports it and changes nothing. */
  lemma NotEnoughExperienceSession()
    ensures var d := [NewCharacter("Aria", "Mage").(experience := 500)];
      LevelUp(d, "Aria") == (NotEnoughExperience, d)
  {
    FirstRequirements();
    var d := [NewCharacter("Aria", "Mage").(experience := 500)];
    assert Lower("Aria") == "aria";
    assert FirstMatch(d, "Aria") == Some(0);
    assert !CanGain(d[0]);
    assert d[0 := d[0]] == d;
    LevelUpEffect(d, "Aria");
  }
}
