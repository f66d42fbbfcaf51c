# Riverstone RPG: character progression and map traversal

This project models two parts of a small text adventure.

- **character.py.** Characters are kept in a JSON list, and one of them is the active character. The model covers:
  - creating a character, with a case-insensitive duplicate-name check, the allowed jobs and the base stats;
  - looking up the active character and writing it back;
  - renaming the active character;
  - adding experience;
  - levelling up. The level-up loop can gain several levels at once, stops at level 40, and adds the job's stat increments for every level gained.
- **RPGGame.py.** The map is made of three constant tables (`zones`, `directions`, `other_options`). The `start_game` loop moves the player from zone to zone, one typed command at a time.

Modules:

- `Wrappers`: `Option`.
- `Text`: ASCII `lower()` and `title()`.
- `Leveling`: the levelling table.
- `Progression`: the character record, the job increments, and the level-up loop (`Progress`). The loop is proved against the function `Climb`.
- `Roster`: each store operation as a function on the character list.
- `CharacterService`: the class `CharacterStore`. Its fields are the stored list and the active name, and its methods change them in place. Each method is proved equal to the matching `Roster` function.
- `World`: the map tables, one step of the game loop (`Step`), and the loop itself (`StartGame`), proved against `Run`.

Inputs become parameters:

- the answers typed at `input()` prompts;
- the confirmation given to `double_confirm`;
- the experience amount;
- the commands typed in the game loop.

The JSON file becomes the `characters` field.

Two behaviours of the code are modelled as written.

1. **A rename is never stored.** `update_character_name` changes the name of the record it looked up. It then calls `update_active_character`, which looks for a stored record under the *new* name. No stored record has that name, so the list is written back unchanged. The active name still becomes the new name. After that, the active name finds no record (`Roster.RenameOrphansActiveName`).
2. **Negative experience is accepted.** `add_experience` adds any amount, so a negative amount lowers experience (`Roster.NegativeExperienceApplied`).

## Model

| member | source | states |
|---|---|---|
| Leveling.Requirement | character.py:14-22 | every entry of the levelling table is at least the base of 1000 experience |
| Leveling.FirstRequirements | character.py:17-19 | level 1 needs 1000 experience, level 2 needs 1200 |
| Leveling.RequirementIncreasing | character.py:18-19 | each level needs strictly more experience than the one before, for levels 1 to 40 |
| Text.Lower | character.py:64 | lower-casing keeps the length and lower-cases each letter, leaving other characters alone |
| Text.SameName | character.py:64 | the case-insensitive name comparison `a.lower() == b.lower()`; the properties of the duplicate test built on it are stated by `Roster.NameTakenIffFound` |
| Text.Title | character.py:73 | `title()`: each letter after a letter is lower-cased and every other letter upper-cased; its length is kept (`Text.TitleFrom`), and `Text.LowerOfTitle` and `Text.TitleOfWord` state what it does to a job name |
| Text.LowerOfTitle | character.py:73-74 | lower-casing a title-cased string gives the lower-cased original, so the `back` test after `title()` means the same as before it |
| Text.TitleOfWord | character.py:73 | `title()` of a single word upper-cases its first letter and lower-cases the rest |
| Progression.JobAccepted | character.py:71-76 | a job typed in any mix of cases is accepted after title-casing exactly when it spells warrior, mage or rogue |
| Progression.JobIncrements | character.py:8-12 | `JOB_STAT_INCREMENTS`, with the default of lines 247-248 for any other job; how a level-up applies it is stated by `Progression.ClimbAddsIncrements` |
| Progression.NewCharacter | character.py:83-95 | the new record with the base stats; its fields are stated by `Roster.CreateAppends` |
| Progression.Gain | character.py:239-255 | one pass of the `level_up` loop body: one level more, that level's threshold spent, the next threshold shown and the job's increments added; stated through `Progression.Climb` |
| Progression.Climb | character.py:238-255 | the whole `level_up` loop as a function; `Progression.Progress` is proved equal to it, and `ClimbLevelBounds`, `ClimbSpendsExperience`, `ClimbKeepsExperienceNonNegative`, `ClimbAddsIncrements` and `ClimbPreservesConsistent` state its properties |
| Progression.Progress | character.py:237-255 | the while loop of `level_up` produces exactly `Climb` of the record, and `leveled` is true exactly when the level rose |
| Progression.ClimbLevelBounds | character.py:238-242 | the level never falls and never passes 40; the loop stops at level 40 or when experience is below the current level's requirement |
| Progression.ClimbSpendsExperience | character.py:239-244 | the experience left is the starting experience minus the requirements of every level passed |
| Progression.ClimbKeepsExperienceNonNegative | character.py:241-244 | experience that starts non-negative stays non-negative |
| Progression.ClimbAddsIncrements | character.py:8-12 | after k levels, the name and job are kept and each of the six stats rises by exactly k times the job's increment; unknown jobs use the default increment of lines 247-248; after a gain `experienceToNextLevel` is the new level's requirement; with k = 0 the record is unchanged |
| Progression.ClimbPreservesConsistent | character.py:243-245 | a record whose level is in range and whose `experienceToNextLevel` matches it still has both after levelling |
| Progression.ClimbIdempotent | character.py:238-242 | levelling a record a second time gains nothing: the result of one climb is its own climb |
| Roster.FirstMatch | character.py:164-166 | the first index whose name equals the given one case-insensitively, or none when no record's name does |
| Roster.Lookup | character.py:161-167 | `get_active_character` on the list; stated by `Roster.LookupFindsFirst` and `Roster.NameTakenIffFound` |
| Roster.Replace | character.py:169-176 | `update_active_character` on the list; stated by `Roster.ReplaceOnlyFirstMatch`, `Roster.ReplaceFound`, `Roster.WriteBackUnchanged` and `Roster.ReplaceKeepsWellFormed` |
| Roster.Create | character.py:52-99 | `create_new_character` with the answers given; stated by `Roster.CreateAppends`, `Roster.CreateRefusesTakenName`, `Roster.CreateRefusals` and `Roster.CreateKeepsWellFormed` |
| Roster.Rename | character.py:178-198 | `update_character_name` with the answers given; stated by `Roster.RenameKeepsStore`, `Roster.RenameRefusesOwnName`, `Roster.RenameRefusesTakenName`, `Roster.RenameUnconfirmed` and `Roster.RenameOrphansActiveName` |
| Roster.AddExperience | character.py:219-228 | `add_experience`; stated by `Roster.AddExperienceEffect`, `Roster.AddExperienceKeepsWellFormed` and `Roster.NegativeExperienceApplied` |
| Roster.LevelUp | character.py:230-261 | `level_up` on any list whose levels are at least 1; stated by `Roster.LevelUpEffect`, `Roster.LevelUpKeepsWellFormed` and `Roster.LevelUpIdempotent` |
| Roster.NameTakenIffFound | character.py:64 | the duplicate-name test holds exactly when the case-insensitive search finds a record |
| Roster.LookupFindsFirst | character.py:161-167 | `get_active_character` returns the first record matching the active name, or None exactly when no record matches |
| Roster.ReplaceOnlyFirstMatch | character.py:169-176 | the write-back keeps the length and replaces only the first match; every other entry stays; with no match the list is unchanged |
| Roster.ReplaceFound | character.py:172-175 | when the updated record matches the name at the first match, the write-back is an update at that index |
| Roster.WriteBackUnchanged | character.py:169-176 | writing back the record just looked up leaves the list as it was |
| Roster.ReplaceKeepsWellFormed | character.py:169-176 | writing back a consistent record keeps every record consistent and keeps names unique up to case |
| Roster.CreateAppends | character.py:52-99 | creation succeeds exactly when the name is not `back`, the name is not taken in any case, and the job is one of the three; the new record is appended with level 1, experience 0, `experienceToNextLevel` 1000, hp 100, mp 50, physical attack 10, magical attack 5, defense 5 and hit rate 5; earlier entries are unchanged; every refusal leaves the list unchanged |
| Roster.CreateRefusesTakenName | character.py:62-65 | a name already stored in any case is refused, whatever the job |
| Roster.CreateRefusals | character.py:60-80 | the job is refused as invalid exactly when the name is not `back`, the name is free, and the job is neither `back` nor a spelling of the three jobs; creation is cancelled exactly when the name is `back`, or the name is free and the job is `back` |
| Roster.CreateKeepsWellFormed | character.py:82-96 | creation keeps names unique up to case and every record consistent |
| Roster.RenameKeepsStore | character.py:178-198 | the stored list never changes; a rename is accepted exactly when there is an active record, the change is confirmed and the new name is not taken; exactly then does the active name become the new name |
| Roster.RenameRefusesOwnName | character.py:189-192 | renaming to the character's own name, in any case, is refused as a duplicate |
| Roster.RenameRefusesTakenName | character.py:189-192 | a taken new name is refused; the store and the active name stay as they were |
| Roster.RenameUnconfirmed | character.py:187-198 | a rename that is not confirmed is cancelled; the store and the active name stay as they were |
| Roster.RenameOrphansActiveName | character.py:193-195 | after an accepted rename, the active name finds no record and the record keeps its old name; a later `add_experience` reports no active character |
| Roster.AddExperienceEffect | character.py:219-227 | only the active record's experience changes, by exactly the amount given; every other field and entry stays; without an active record nothing changes |
| Roster.AddExperienceKeepsWellFormed | character.py:219-227 | adding experience keeps the stored list well formed |
| Roster.NegativeExperienceApplied | character.py:226 | a negative amount is accepted and lowers the experience |
| Roster.LevelUpEffect | character.py:230-261 | on any list whose levels are at least 1, level-up writes back `Climb` of the active record at its place, reports a level-up exactly when a level was gained, and leaves every other entry alone |
| Roster.LevelUpKeepsWellFormed | character.py:230-256 | level-up keeps the stored list well formed |
| Roster.LevelUpIdempotent | character.py:230-256 | a second level-up straight after the first leaves the list as the first left it |
| Roster.MageSession | character.py:52-256 | creating a mage called Aria, adding 1000 experience and levelling up gives level 2, experience 0, next requirement 1200 and the mage's stats |
| Roster.NotEnoughExperienceSession | character.py:241-242 | with 500 of the 1000 experience needed, level-up reports not enough experience and leaves the record as it was |
| CharacterService.CharacterStore.GetActiveCharacter | character.py:161-167 | the search loop returns the first record whose name matches the active name case-insensitively, or None |
| CharacterService.CharacterStore.UpdateActiveCharacter | character.py:169-176 | the loop with `break` replaces the first match in place and keeps the store well formed |
| CharacterService.CharacterStore.CreateNewCharacter | character.py:52-99 | the stored list and the outcome are those of `Roster.Create`; the active name is unchanged |
| CharacterService.CharacterStore.UpdateCharacterName | character.py:178-198 | the stored list, the outcome and the new active name are those of `Roster.Rename` |
| CharacterService.CharacterStore.AddExperience | character.py:219-228 | the stored list and the outcome are those of `Roster.AddExperience` |
| CharacterService.CharacterStore.LevelUp | character.py:230-261 | the loop's result is written back as `Roster.LevelUp` describes, and the store stays well formed |
| CharacterService.CharacterStore.constructor | character.py:154-155 | the process starts with the loaded records and no active character |
| CharacterService.CharacterStore.SetActiveCharacter | character.py:157-159 | the active name becomes the name given and the list is unchanged |
| World.Exits | RPGGame.py:87-110 | every entry of `directions` has exactly the keys north, east, south and west |
| World.Directions | RPGGame.py:87-110 | every zone has an entry in `directions` whose keys are the four compass points, and every target that is not None is itself a zone |
| World.Description | RPGGame.py:62-85 | `zones`: the description of each of the 22 zones; nothing is proved about the texts |
| World.OtherOptions | RPGGame.py:112-135 | `other_options`: the NPCs of each zone, taken from `npcs` (`World.NPCS`, lines 56-60), and its items; used by `World.Classify` for the `talk` test |
| World.Classify | RPGGame.py:238-254 | which branch of the if-chain a command takes, in the chain's order |
| World.Step | RPGGame.py:238-254 | one pass of the loop; stated by `World.NonMoveStays`, `World.MoveFollowsExit`, `World.MixedCaseDirectionCrashes` and `World.MovesFollowExits` |
| World.Run | RPGGame.py:224-254 | the loop over the typed commands, stopping at a crash; `World.StartGame` is proved equal to it and `World.RunFollowsExits` states where it can end |
| World.StartGame | RPGGame.py:220-254 | the loop starts in Town and ends where `Run` of the typed commands from Town says |
| World.NonMoveStays | RPGGame.py:238-245 | a command that is not a direction in any case leaves the location unchanged: help, changename, character, exit, an NPC's name or an unknown command |
| World.MoveFollowsExit | RPGGame.py:246-250 | a lower-case direction moves to the exit's target, or stays when the target is None |
| World.MixedCaseDirectionCrashes | RPGGame.py:246-247 | a direction with a capital letter passes the lower-cased test but fails the lookup by the raw command |
| World.MovesFollowExits | RPGGame.py:246-250 | when a step changes the location, the new zone is the target of one of the old zone's four exits |
| World.RunFollowsExits | RPGGame.py:224-254 | after n commands the player stands in a zone reachable from the starting zone over at most n exits |
| World.MovesAreNotReversible | RPGGame.py:91-93 | north from Town is Mountain Pass, but south from Mountain Pass is Base of Mountain, and Base of Mountain's south exit leads to Town |

## Left out

- The JSON file (`load_character_data`, `save_character_data`) is a field of the store. Every read and save is a read or assignment of that field.
- `input()`, `print`, `time.sleep` and `exit()` are left out. So are the prompting loops: `double_confirm`, `choose_existing_character`, `choose_or_create_character`, `character_main_menu`, `main_menu`, `start_menu`, `change_log` and the answer loop in `exit_game`.
- Creation takes one confirmed name and one confirmed job. Where the code re-prompts after a taken name or an unknown job, the model returns `DuplicateName` or `InvalidJob`.
- Rename takes the `double_confirm` answer as a bool.
- `strip()` of the typed answers is assumed done by the caller.
- In the game loop, `exit` is modelled as the answer N to the exit prompt. The player stays where they are, and quitting the game is not modelled.
- `change_name` runs the rename (`Roster.Rename`); `manage_character` opens the character menu; `help`, `talk` and `comm_err` only print. The World model does not connect `change_name` or `manage_character` to the character store: in the game loop these commands only leave the location unchanged.
- Leveling.Requirement: gives the real-number value `floor(1000 * 6^(l-1) / 5^(l-1))`. The program computes `int(1000 * 1.2 ** (l - 1))` in floating point, and its table can be one lower. At level 4, for example, the program's entry is 1727 and the model's is 1728, so a level-4 record with exactly 1727 experience levels up in the program but not in the model. Only entry 1 (1000) and entry 2 (1200) are stated as literal values.
- `lower()` and `title()` work on ASCII letters only. Unicode case mapping is not modelled.
- The active name being None is a precondition (`activeName.Some?`). In the code, `.lower()` on None would crash.
- CharacterService.CharacterStore.constructor: the loaded list is required to be well formed. Every level must be 1 to 40, `experienceToNextLevel` must match it, and names must be unique up to case. The code does not check a hand-edited file. The list functions need less: `Roster.LevelUp` asks only that every level be at least 1 (`Roster.LevelsPositive`), because a lower level has no table entry.
- Zone names are a datatype (`World.Zone`), not the strings the tables are keyed by. So `zones`, `directions` and `other_options` are total functions on the zones, and it is by construction that they share one key set and that every non-None target is a key of `zones`. The model does not prove that the 22 name strings (`World.ZoneName`) are distinct.
- The model states nothing about the zone descriptions, quests or NPC dialogue. The NPC lists are used only for the `talk` test.
- save.py, image_request.py and themes.py are not part of this model. They are socket loops that read and write files.
