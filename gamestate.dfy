/** The shared game-state record that the controls, the quiz, the
    collectibles and the frame loop all read and write. */
module Game {

  datatype Phase = Intro | Gameplay

  class GameState {
    var gamePhase: Phase
    /** Suspends hero input and physics during scripted scenes and the quiz. */
    var movementLocked: bool
    var minionsFought: int
    var totalMinions: int
    /** Set once the wave for the second rooftop has been scheduled. */
    var minionsSpawned: bool
    var currentLevel: int

    /** The record built at start-up. */
    constructor ()
      ensures gamePhase == Intro && !movementLocked
      ensures minionsFought == 0 && totalMinions == 20
      ensures !minionsSpawned && currentLevel == 1
    {
      gamePhase := Intro;
      movementLocked := false;
      minionsFought := 0;
      totalMinions := 20;
      minionsSpawned := false;
      currentLevel := 1;
    }
  }
}
