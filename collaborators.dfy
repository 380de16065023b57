/**
 * The three collaborators that src/game.c drives: the input history
 * (inputhistory.h), the section table with its personal-best records
 * (sectiontable.h) and the game history (gamehistory.h). Their bodies are
 * not part of this model; each is modelled by the log of the calls it
 * receives, with their arguments.
 */
module Collaborators {
  import opened GameDefs

  datatype InputEvent =
    | PushElement(level: int)   // pushInputHistoryElement(history, level)
    | ResetInputs               // resetInputHistory(history)

  datatype SectionEvent =
    | LevelUp(game: Tracker)                             // updateSectionTable(table, game)
    | GoldUpdate(gameMode: Mode)                       // updateGoldSTRecords(getPBTable(&table->pbHash, mode), table)
    | ResetSections                                    // resetSectionTable(table)

  datatype ArchiveEvent =
    | PushRun(blockHistory: seq<TapState>, finalState: TapState, gameMode: Mode)   // pushStateToGameHistory

  class InputHistory {
    var log: seq<InputEvent>

    constructor ()
      ensures log == []
    {
      log := [];
    }

    method PushInputHistoryElement(level: int)
      modifies this
      ensures log == old(log) + [PushElement(level)]
    {
      log := log + [PushElement(level)];
    }

    method ResetInputHistory()
      modifies this
      ensures log == old(log) + [ResetInputs]
    {
      log := log + [ResetInputs];
    }
  }

  class SectionTable {
    var log: seq<SectionEvent>

    constructor ()
      ensures log == []
    {
      log := [];
    }

    /** The call receives the whole game, as it stands after its snapshots were rotated. */
    method UpdateSectionTable(game: Tracker)
      modifies this
      ensures log == old(log) + [LevelUp(game)]
    {
      log := log + [LevelUp(game)];
    }

    method UpdateGoldSTRecords(gameMode: Mode)
      modifies this
      ensures log == old(log) + [GoldUpdate(gameMode)]
    {
      log := log + [GoldUpdate(gameMode)];
    }

    method ResetSectionTable()
      modifies this
      ensures log == old(log) + [ResetSections]
    {
      log := log + [ResetSections];
    }
  }

  class GameHistory {
    var log: seq<ArchiveEvent>

    constructor ()
      ensures log == []
    {
      log := [];
    }

    method PushStateToGameHistory(blockHistory: seq<TapState>, finalState: TapState, gameMode: Mode)
      modifies this
      ensures log == old(log) + [PushRun(blockHistory, finalState, gameMode)]
    {
      log := log + [PushRun(blockHistory, finalState, gameMode)];
    }
  }
}
