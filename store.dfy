/**
 * The character module's state as an object: the list held in
 * character_data.json (every operation loads it, changes it and saves it
 * whole) and the global `_active_character_name`.
 */
module CharacterService {
  import opened Wrappers
  import opened Text
  import opened Leveling
  import opened Progression
  import opened Roster

  class CharacterStore {
    /** The records of character_data.json, in file order. */
    var characters: seq<Character>
    /** `_active_character_name`; None until a character is chosen. */
    var activeName: Option<string>

    ghost predicate Valid()
      reads this
    {
      WellFormed(characters)
    }

    /** The process starts with the records found in the file (none on a first run) and no active character. */
    constructor (loaded: seq<Character>)
      requires WellFormed(loaded)
      ensures Valid()
      ensures characters == loaded && activeName == None
    {
      characters := loaded;
      activeName := None;
    }

    /** set_active_character */
    method SetActiveCharacter(name: string)
      requires Valid()
      modifies this
      ensures Valid()
      ensures characters == old(characters) && activeName == Some(name)
    {
      activeName := Some(name);
    }

    /** get_active_character: the search loop over the stored records. */
    method GetActiveCharacter() returns (r: Option<Character>)
      requires activeName.Some?
      ensures r == Lookup(characters, activeName.value)
    {
      var name := activeName.value;
      var i := 0;
      while i < |characters|
        invariant 0 <= i <= |characters|
        invariant forall j :: 0 <= j < i ==> !SameName(characters[j].name, name)
      {
        if Lower(characters[i].name) == Lower(name) {
          r := Some(characters[i]);
          return;
        }
        i := i + 1;
      }
      r := None;
    }

    /** update_active_character: replace the first record under the updated record's name, then save. */
    method UpdateActiveCharacter(updated: Character)
      requires Valid() && Consistent(updated)
      modifies this
      ensures Valid()
      ensures characters == Replace(old(characters), updated)
      ensures activeName == old(activeName)
    {
      var data := characters;
      var idx := 0;
      while idx < |data|
        invariant 0 <= idx <= |data|
        invariant data == characters
        invariant forall j :: 0 <= j < idx ==> !SameName(data[j].name, updated.name)
      {
        if Lower(data[idx].name) == Lower(updated.name) {
          data := data[idx := updated];
          break;
        }
        idx := idx + 1;
      }
      ReplaceKeepsWellFormed(characters, updated);
      characters := data;
    }

    /** create_new_character with the user's answers as parameters. */
    method CreateNewCharacter(name: string, job: string) returns (r: Outcome)
      requires Valid()
      modifies this
      ensures Valid()
      ensures (r, characters) == Create(old(characters), name, job)
      ensures activeName == old(activeName)
    {
      CreateKeepsWellFormed(characters, name, job);
      if Lower(name) == "back" {
        return Cancelled;
      }
      if NameTaken(characters, name) {
        return DuplicateName;
      }
      var title := Title(job);
      if Lower(title) == "back" {
        return Cancelled;
      }
      if title !in VALID_JOBS {
        return InvalidJob;
      }
      var character := NewCharacter(name, title);
      characters := characters + [character];
      r := Created(name);
    }

    /** update_character_name with the new name and the confirmation as parameters. */
    method UpdateCharacterName(newName: string, confirmed: bool) returns (r: Outcome)
      requires Valid() && activeName.Some?
      modifies this
      ensures Valid() && activeName.Some?
      ensures (r, characters, activeName.value) == Rename(old(characters), old(activeName).value, newName, confirmed)
    {
      var activeChar := GetActiveCharacter();
      if activeChar.None? {
        return NoActiveCharacter;
      }
      if !confirmed {
        return Cancelled;
      }
      if NameTaken(characters, newName) {
        return DuplicateName;
      }
      var renamed := activeChar.value.(name := newName);
      assert activeChar.value in characters;
      UpdateActiveCharacter(renamed);
      SetActiveCharacter(newName);
      r := Renamed;
    }

    /** add_experience */
    method AddExperience(expPoints: int) returns (r: Outcome)
      requires Valid() && activeName.Some?
      modifies this
      ensures Valid()
      ensures (r, characters) == Roster.AddExperience(old(characters), old(activeName).value, expPoints)
      ensures activeName == old(activeName)
    {
      var activeChar := GetActiveCharacter();
      if activeChar.None? {
        return NoActiveCharacter;
      }
      var c := activeChar.value;
      assert c in characters;
      c := c.(experience := c.experience + expPoints);
      UpdateActiveCharacter(c);
      r := ExperienceAdded;
    }

    /** level_up: the levelling loop on the active record, then one write-back. */
    method LevelUp() returns (r: Outcome)
      requires Valid() && activeName.Some?
      modifies this
      ensures Valid()
      ensures (r, characters) == Roster.LevelUp(old(characters), old(activeName).value)
      ensures activeName == old(activeName)
    {
      var activeChar := GetActiveCharacter();
      if activeChar.None? {
        return NoActiveCharacter;
      }
      assert activeChar.value in characters;
      var c, leveled := Progress(activeChar.value);
      ClimbPreservesConsistent(activeChar.value);
      UpdateActiveCharacter(c);
      r := if leveled then LeveledUp else NotEnoughExperience;
    }
  }
}
