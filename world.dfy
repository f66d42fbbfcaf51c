/**
 * The map of RPGGame.py: the zone table, the exits of each zone, the NPCs
 * and items each zone holds, and how the start_game loop moves the player.
 * A command is one line the player types; the model takes the lines typed
 * so far as a sequence.
 */
module World {
  import opened Wrappers
  import opened Text

  /** An NPC record; its dialogue lines are only printed and are not modelled. */
  datatype Npc = Npc(name: string, npcVal: nat, questVal: nat)

  /** One entry of other_options: the zone's NPCs, its items, and a third list that is empty everywhere. */
  datatype ZoneOptions = ZoneOptions(npcs: seq<Npc>, items: seq<string>, extra: seq<string>)

  /** `npcs` */
  const NPCS: seq<Npc> := [Npc("Beggar", 0, 1), Npc("Town Guard", 1, 0), Npc("Crying Mother", 2, 2)]

  /** The keys of every entry of `directions`. */
  const COMPASS: set<string> := {"north", "east", "south", "west"}

  /** One entry of `directions`: the zone reached going north, east, south and west, None where there is no way. */
  function Exits(north: Option<Zone>, east: Option<Zone>, south: Option<Zone>, west: Option<Zone>)
    : (r: map<string, Option<Zone>>)
    ensures r.Keys == COMPASS
    ensures r["north"] == north && r["east"] == east && r["south"] == south && r["west"] == west
  {
    map["north" := north, "east" := east, "south" := south, "west" := west]
  }

  /** The zones of the map: the keys of `zones`, `directions` and `other_options`. */
  datatype Zone =
    | MountainPeak
    | PathToMountainPeak
    | AbandonedVillage
    | MountainPass
    | BaseOfMountain
    | Town
    | WestSwamp
    | CaveEntrance
    | EasternForest
    | EastSwamp
    | DeepWater
    | SmallIsland
    | Cavern
    | CaveRiver
    | WitchsShack
    | WolfsDen
    | WitchsCellar
    | WesternForest
    | RoadToRiverstone
    | GuardTower
    | CastleGates
    | Riverstone

  /** The name a zone goes by in the three tables and in the text shown to the player. */
  function ZoneName(z: Zone): string {
    match z
    case MountainPeak => "Mountain Peak"
    case PathToMountainPeak => "Path to Mountain Peak"
    case AbandonedVillage => "Abandoned Village"
    case MountainPass => "Mountain Pass"
    case BaseOfMountain => "Base of Mountain"
    case Town => "Town"
    case WestSwamp => "West Swamp"
    case CaveEntrance => "Cave Entrance"
    case EasternForest => "Eastern Forest"
    case EastSwamp => "East Swamp"
    case DeepWater => "Deep Water"
    case SmallIsland => "Small Island"
    case Cavern => "Cavern"
    case CaveRiver => "Cave River"
    case WitchsShack => "Witch's Shack"
    case WolfsDen => "Wolf's Den"
    case WitchsCellar => "Witch's Cellar"
    case WesternForest => "Western Forest"
    case RoadToRiverstone => "Road to Riverstone"
    case GuardTower => "Guard Tower"
    case CastleGates => "Castle Gates"
    case Riverstone => "Riverstone"
  }

  /** `zones`: each zone's description. */
  function Description(z: Zone): string {
    match z
    case MountainPeak => "The top is frigid and windy. You discover a statue of a female, standing pridefully with the sun glistening upon it."
    case PathToMountainPeak => "There are still signs of recent tracks to the peak. You wonder what is at the top."
    case AbandonedVillage => "The village appears to be abandoned for years. Many smaller villages were abandoned when King Victor declared his lordship."
    case MountainPass => "The pass is narrow and not well maintained. Still, you persevere through."
    case BaseOfMountain => "You reach the base of the mountain. Signs of frequent travel are visible."
    case Town => "You are immediately hit with a stench of death and decay. There is no joy or hope left in this town."
    case WestSwamp => ""
    case CaveEntrance => "You come across an unassuming cave entrance. Perhaps there is a clue here."
    case EasternForest => "Much of this forest has been deforested to make room for farmland."
    case EastSwamp => ""
    case DeepWater => "The water is too deep to wade through. You will need a boat to cross."
    case SmallIsland => "The island has no signs of recent activity. There is not much here."
    case Cavern => "The cavern is too dark to see very far, but you know it is vast from the echoes."
    case CaveRiver => "There is a river flowing deeper into the cave. The water is warm to the touch."
    case WitchsShack => "The witch invites you in. The smell is intense, a mix of medicinal, rot, and floral aromas."
    case WolfsDen => "You carefully enter the Wolf's Den. There is a stench of decaying meat."
    case WitchsCellar => "It would be a mistake to enter while the witch is here."
    case WesternForest => "The forest is dense. You see an area where wood is harvested."
    case RoadToRiverstone => "The road has not been maintained in months."
    case GuardTower => "As you approach the guard tower, you notice there are no guards posted."
    case CastleGates => "A large crowd stands in front of the gates, blocked by a line of guards."
    case Riverstone => "You won't be able to get past the crowd. You should find another way."
  }

  /** `directions`: where each exit of a zone leads. */
  function Directions(z: Zone): (r: map<string, Option<Zone>>)
    ensures r.Keys == COMPASS
  {
    match z
    case MountainPeak => Exits(None, None, Some(PathToMountainPeak), None)
    case PathToMountainPeak => Exits(Some(MountainPeak), None, Some(AbandonedVillage), None)
    case AbandonedVillage => Exits(Some(PathToMountainPeak), Some(CaveEntrance), Some(MountainPass), None)
    case MountainPass => Exits(Some(AbandonedVillage), None, Some(BaseOfMountain), None)
    case BaseOfMountain => Exits(Some(MountainPass), None, Some(Town), None)
    case Town => Exits(Some(MountainPass), Some(EasternForest), Some(WestSwamp), Some(WesternForest))
    case WestSwamp => Exits(Some(Town), Some(EastSwamp), None, Some(RoadToRiverstone))
    case CaveEntrance => Exits(None, Some(Cavern), None, Some(AbandonedVillage))
    case EasternForest => Exits(None, None, Some(EastSwamp), Some(Town))
    case EastSwamp => Exits(Some(EasternForest), Some(WitchsShack), Some(DeepWater), Some(WestSwamp))
    case DeepWater => Exits(Some(EastSwamp), None, Some(SmallIsland), None)
    case SmallIsland => Exits(Some(DeepWater), None, None, None)
    case Cavern => Exits(Some(CaveEntrance), None, Some(CaveRiver), Some(WolfsDen))
    case CaveRiver => Exits(Some(Cavern), None, None, None)
    case WitchsShack => Exits(None, Some(WitchsCellar), None, Some(EastSwamp))
    case WolfsDen => Exits(None, None, None, Some(Cavern))
    case WitchsCellar => Exits(None, None, None, Some(WitchsShack))
    case WesternForest => Exits(None, Some(Town), Some(RoadToRiverstone), None)
    case RoadToRiverstone => Exits(Some(WesternForest), Some(WestSwamp), None, Some(GuardTower))
    case GuardTower => Exits(None, Some(RoadToRiverstone), None, Some(CastleGates))
    case CastleGates => Exits(None, Some(GuardTower), None, Some(Riverstone))
    case Riverstone => Exits(None, Some(CastleGates), None, None)
  }

  /** `other_options`: the NPCs and the items of each zone. */
  function OtherOptions(z: Zone): ZoneOptions {
    match z
    case MountainPeak => ZoneOptions([NPCS[2]], [], [])
    case PathToMountainPeak => ZoneOptions([], [], [])
    case AbandonedVillage => ZoneOptions([], [], [])
    case MountainPass => ZoneOptions([], ["item1", "item2"], [])
    case BaseOfMountain => ZoneOptions([], ["item1", "item2"], [])
    case Town => ZoneOptions([NPCS[0], NPCS[1], NPCS[2]], [], [])
    case WestSwamp => ZoneOptions([], [], [])
    case CaveEntrance => ZoneOptions([], [], [])
    case EasternForest => ZoneOptions([], [], [])
    case EastSwamp => ZoneOptions([], [], [])
    case DeepWater => ZoneOptions([], [], [])
    case SmallIsland => ZoneOptions([], [], [])
    case Cavern => ZoneOptions([], [], [])
    case CaveRiver => ZoneOptions([], [], [])
    case WitchsShack => ZoneOptions([], [], [])
    case WolfsDen => ZoneOptions([], [], [])
    case WitchsCellar => ZoneOptions([], [], [])
    case WesternForest => ZoneOptions([], [], [])
    case RoadToRiverstone => ZoneOptions([], [], [])
    case GuardTower => ZoneOptions([], [], [])
    case CastleGates => ZoneOptions([], [], [])
    case Riverstone => ZoneOptions([], [], [])
  }


  /** Where start_game puts the player. */
  const START: Zone := Town

  /** What the start_game loop does with a command, in the order it tests them. */
  datatype Command =
    | Exit
    | ChangeName
    | ManageCharacter
    | Help
    | Move(direction: string)
    | Talk(npc: string)
    | Unknown

  /** Whether `command` names, in any case, one of the NPCs of the zone. */
  predicate NamesNpc(location: Zone, command: string) {
    var npcs := OtherOptions(location).npcs;
    exists i :: 0 <= i < |npcs| && SameName(npcs[i].name, command)
  }

  function Classify(location: Zone, command: string): Command {
    var lower := Lower(command);
    if lower == "exit" then Exit
    else if lower == "changename" then ChangeName
    else if lower == "character" then ManageCharacter
    else if lower == "help" then Help
    else if lower in Directions(location) then Move(command)
    else if NamesNpc(location, command) then Talk(lower)
    else Unknown
  }

  /**
   * Where the player is after a command, or that the game stopped there: the
   * exit test lower-cases the command but the exit is then looked up by the
   * command as typed, which is a KeyError unless it was typed in lower case.
   */
  datatype Play = Exploring(location: Zone) | Crashed(location: Zone)

  /** One pass of the start_game loop. */
  function Step(location: Zone, command: string): Play {
    var exits := Directions(location);
    match Classify(location, command)
    case Move(d) =>
      if d !in exits then Crashed(location)
      else if exits[d].None? then Exploring(location)
      else Exploring(exits[d].value)
    case _ => Exploring(location)
  }

  /** The loop run over the commands typed, stopping at a crash. */
  function Run(location: Zone, commands: seq<string>): Play
    decreases |commands|
  {
    if commands == [] then Exploring(location)
    else
      match Step(location, commands[0])
      case Crashed(z) => Crashed(z)
      case Exploring(z) => Run(z, commands[1..])
  }

  /**
   * start_game: the player starts in Town and each command typed is handled
   * by the if-chain of the loop; the other commands open menus or print text
   * and leave the location as it is.
   */
  method StartGame(commands: seq<string>) returns (p: Play)
    ensures p == Run(START, commands)
  {
    var location := START;
    var i := 0;
    while i < |commands|
      invariant 0 <= i <= |commands|
      invariant Run(START, commands) == Run(location, commands[i..])
    {
      var command := commands[i];
      assert commands[i..][1..] == commands[i + 1..];
      var lower := Lower(command);
      var exits := Directions(location);
      if lower == "exit" || lower == "changename" || lower == "character" || lower == "help" {
      } else if lower in exits {
        if command !in exits {
          return Crashed(location);
        }
        if exits[command].Some? {
          location := exits[command].value;
        }
      }
      i := i + 1;
    }
    p := Exploring(location);
  }

  // ----- moves -----

  /** A command that is not a direction in any case (help, changename, character, an NPC, anything unknown) leaves the player where they are. */
  lemma NonMoveStays(location: Zone, command: string)
    requires Lower(command) !in COMPASS
    ensures Step(location, command) == Exploring(location)
  {
  }

  lemma CompassIsLowerCase()
    ensures forall d :: d in COMPASS ==> Lower(d) == d
  {
    assert Lower("north") == "north";
    assert Lower("east") == "east";
    assert Lower("south") == "south";
    assert Lower("west") == "west";
  }

  /** A direction typed in lower case follows that exit when there is one and stays put when it is None. */
  lemma MoveFollowsExit(location: Zone, command: string)
    requires command in COMPASS
    ensures Step(location, command) ==
      match Directions(location)[command]
      case None => Exploring(location)
      case Some(target) => Exploring(target)
  {
    CompassIsLowerCase();
    var lower := Lower(command);
    assert lower == command;
    assert lower != "exit" && lower != "changename" && lower != "character" && lower != "help";
    assert command in Directions(location);
    assert Classify(location, command) == Move(command);
  }

  /** A direction typed with any capital letter passes the exit test and then fails the lookup. */
  lemma MixedCaseDirectionCrashes(location: Zone, command: string)
    requires Lower(command) in COMPASS && command !in COMPASS
    ensures Step(location, command) == Crashed(location)
  {
  }

  /** Whenever the location changes, it changes along an exit of the zone left. */
  lemma MovesFollowExits(location: Zone, command: string)
    ensures Step(location, command).location == location
      || exists d :: d in COMPASS && Directions(location)[d] == Some(Step(location, command).location)
  {
  }

  /** `b` can be reached from `a` over at most `n` exits. */
  ghost predicate Reachable(a: Zone, b: Zone, n: nat)
    decreases n
  {
    a == b || (n > 0 && exists d :: d in COMPASS && Directions(a)[d].Some? && Reachable(Directions(a)[d].value, b, n - 1))
  }

  lemma {:induction false} ReachableWeaken(a: Zone, b: Zone, n: nat)
    requires Reachable(a, b, n)
    ensures Reachable(a, b, n + 1)
    decreases n
  {
    if a != b {
      var d :| d in COMPASS && Directions(a)[d].Some? && Reachable(Directions(a)[d].value, b, n - 1);
      ReachableWeaken(Directions(a)[d].value, b, n - 1);
    }
  }

  /** After any commands the player stands in a zone reached from where they started over at most one exit per command. */
  lemma {:induction false} RunFollowsExits(location: Zone, commands: seq<string>)
    ensures Reachable(location, Run(location, commands).location, |commands|)
    decreases |commands|
  {
    if commands != [] {
      var next := Step(location, commands[0]);
      var last := Run(location, commands).location;
      if next.Crashed? {
        assert last == location;
      } else {
        RunFollowsExits(next.location, commands[1..]);
        assert Reachable(next.location, last, |commands| - 1);
        MovesFollowExits(location, commands[0]);
        if next.location == location {
          ReachableWeaken(location, last, |commands| - 1);
        } else {
          var d :| d in COMPASS && Directions(location)[d] == Some(next.location);
          assert Directions(location)[d].Some? && Reachable(Directions(location)[d].value, last, |commands| - 1);
        }
      }
    }
  }

  /**
   * The map is not symmetric: north from Town is the Mountain Pass, but
   * south from the Mountain Pass is the Base of Mountain, whose south exit
   * leads back to Town.
   */
  lemma MovesAreNotReversible()
    ensures Step(Town, "north") == Exploring(MountainPass)
    ensures Step(MountainPass, "south") == Exploring(BaseOfMountain)
    ensures Step(BaseOfMountain, "south") == Exploring(Town)
  {
    MoveFollowsExit(Town, "north");
    assert Directions(Town)["north"] == Some(MountainPass);
    MoveFollowsExit(MountainPass, "south");
    assert Directions(MountainPass)["south"] == Some(BaseOfMountain);
    MoveFollowsExit(BaseOfMountain, "south");
    assert Directions(BaseOfMountain)["south"] == Some(Town);
  }
}
