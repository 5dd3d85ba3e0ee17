/** Menu navigation of the UI scenes: a pure function from the active
    scene's name, the clicked button and the optional custom return scene
    to what the controller does. Scene loading itself, audio, the
    background-music object and the discovery of buttons by name belong to
    the engine and are not modelled. */
module SceneNavigation {

  const MainMenu := "MainMenu"
  const SelectLevel := "SelectLevel"
  const Settings := "Settings"
  const AchievementGlobal := "AchievementGlobal"
  const Achievement1 := "Achievement1"
  const Achievement2 := "Achievement2"
  const Achievement3 := "Achievement3"
  const Guide := "Guide"
  const Pause := "Pause"
  const Complete := "Complete"
  const Restart := "Restart"
  const Exit := "Exit"
  /** The gameplay scene the pause menu's restart reloads. */
  const Level1 := "level1"

  /** The buttons the controller wires up, by their handler. `Home` and
      `MainMenu` buttons share a handler but are kept apart here. */
  datatype Button =
    | ContinueButton | NewGameButton | AchievementButton | SettingsButton | ExitGameButton
    | BackButton | MainMenuButton | HomeButton | YesButton | NoButton | RestartButton
    | NextLevelButton | MusicButton | GuideButton | NextAchievement | BackAchievement

  /** What a click does to the scene set. */
  datatype Effect = Stay | Load(scene: string) | UnloadPause | Quit

  /** A click's outcome: whether the time scale is set back to 1, and the
      scene effect. */
  datatype Nav = Nav(resumeTime: bool, effect: Effect)

  predicate IsAchievementPage(scene: string) {
    scene == AchievementGlobal || scene == Achievement1 || scene == Achievement2 || scene == Achievement3
  }

  /** Loading by name refuses the empty name. */
  function LoadScene(name: string): (e: Effect)
    ensures e.Load? <==> name != ""
    ensures e.Load? ==> e.scene == name
    ensures !e.Load? ==> e == Stay
  {
    if name == "" then Stay else Load(name)
  }

  function OnBack(current: string, customReturn: string): Effect {
    if current == Guide then LoadScene(Settings)
    else if current == Settings then LoadScene(MainMenu)
    else if current == SelectLevel then LoadScene(MainMenu)
    else if IsAchievementPage(current) then LoadScene(MainMenu)
    else LoadScene(if customReturn == "" then MainMenu else customReturn)
  }

  function OnNextAchievement(current: string): Effect {
    if current == AchievementGlobal then LoadScene(Achievement1)
    else if current == Achievement1 then LoadScene(Achievement2)
    else if current == Achievement2 then LoadScene(Achievement3)
    else if current == Achievement3 then LoadScene(AchievementGlobal)
    else Stay
  }

  function OnBackAchievement(current: string): Effect {
    if current == AchievementGlobal then LoadScene(Achievement3)
    else if current == Achievement1 then LoadScene(AchievementGlobal)
    else if current == Achievement2 then LoadScene(Achievement1)
    else if current == Achievement3 then LoadScene(Achievement2)
    else Stay
  }

  /** The controller's response to a click on `button` while `current` is
      the active scene. */
  function Click(current: string, button: Button, customReturn: string): (n: Nav)
    ensures n.effect.Load? ==> n.effect.scene != ""
    ensures n.resumeTime ==> current == Pause
    ensures n.effect == UnloadPause <==> current == Pause && button == ContinueButton
    ensures n.effect == Quit <==> current == MainMenu && button == ExitGameButton
  {
    match button
    case ContinueButton =>
      if current == Pause then Nav(true, UnloadPause) else Nav(false, LoadScene(SelectLevel))
    case NewGameButton => Nav(false, LoadScene(SelectLevel))
    case AchievementButton => Nav(false, LoadScene(AchievementGlobal))
    case SettingsButton => Nav(false, LoadScene(Settings))
    case ExitGameButton =>
      if current == MainMenu then Nav(false, Quit) else Nav(false, LoadScene(Exit))
    case BackButton => Nav(false, OnBack(current, customReturn))
    case MainMenuButton => Nav(current == Pause, LoadScene(MainMenu))
    case HomeButton => Nav(current == Pause, LoadScene(MainMenu))
    case YesButton =>
      if current == Restart then Nav(false, Stay)
      else if current == Exit then Nav(false, LoadScene(MainMenu))
      else Nav(false, Stay)
    case NoButton =>
      if current == Restart || current == Exit then Nav(false, LoadScene(Pause))
      else Nav(false, OnBack(current, customReturn))
    case RestartButton =>
      // the pause menu loads the level directly, not through LoadScene
      if current == Pause then Nav(true, Load(Level1)) else Nav(false, LoadScene(Restart))
    case NextLevelButton => Nav(false, LoadScene(SelectLevel))
    case MusicButton => Nav(false, Stay)
    case GuideButton => Nav(false, LoadScene(Guide))
    case NextAchievement => Nav(false, OnNextAchievement(current))
    case BackAchievement => Nav(false, OnBackAchievement(current))
  }

  /** The achievement pages form a cycle Global, 1, 2, 3: Next steps
      forward, Back steps backward and undoes Next (and the reverse);
      outside the four pages both do nothing. */
  lemma AchievementPagesCycle(current: string, custom: string)
    ensures IsAchievementPage(current) ==>
      var fwd := Click(current, NextAchievement, custom).effect;
      var bwd := Click(current, BackAchievement, custom).effect;
      && fwd.Load? && IsAchievementPage(fwd.scene) && fwd.scene != current
      && bwd.Load? && IsAchievementPage(bwd.scene) && bwd.scene != current
      && Click(fwd.scene, BackAchievement, custom).effect == Load(current)
      && Click(bwd.scene, NextAchievement, custom).effect == Load(current)
    ensures !IsAchievementPage(current) ==>
      Click(current, NextAchievement, custom) == Nav(false, Stay)
      && Click(current, BackAchievement, custom) == Nav(false, Stay)
  {
  }

  /** Four Next clicks from any achievement page return to it, and no
      fewer do. */
  lemma AchievementCycleLengthFour(current: string)
    requires IsAchievementPage(current)
    ensures var a := OnNextAchievement(current).scene;
      var b := OnNextAchievement(a).scene;
      var c := OnNextAchievement(b).scene;
      && OnNextAchievement(c) == Load(current)
      && a != current && b != current && c != current
      && a != b && b != c && a != c
  {
  }

  /** Back: Guide returns to Settings; Settings, SelectLevel and the
      achievement pages return to the main menu; any other scene goes to
      the custom return scene, or to the main menu when none is set. Back
      always loads a scene. */
  lemma BackTargets(current: string, custom: string)
    ensures var e := Click(current, BackButton, custom).effect;
      && e.Load?
      && (current == Guide ==> e.scene == Settings)
      && (current == Settings || current == SelectLevel || IsAchievementPage(current) ==> e.scene == MainMenu)
      && (current != Guide && current != Settings && current != SelectLevel && !IsAchievementPage(current) ==>
            e.scene == (if custom == "" then MainMenu else custom))
  {
  }

  /** No returns to the pause menu from the two confirmation scenes and
      behaves exactly like Back everywhere else. */
  lemma NoIsBackOutsideConfirmations(current: string, custom: string)
    ensures current == Restart || current == Exit ==> Click(current, NoButton, custom) == Nav(false, Load(Pause))
    ensures current != Restart && current != Exit ==> Click(current, NoButton, custom) == Click(current, BackButton, custom)
  {
  }

  /** Yes navigates only from the exit confirmation, to the main menu. */
  lemma YesOnlyConfirmsExit(current: string, custom: string)
    ensures Click(current, YesButton, custom).effect != Stay <==> current == Exit
    ensures current == Exit ==> Click(current, YesButton, custom) == Nav(false, Load(MainMenu))
  {
  }

  /** Exit game quits from the main menu and opens the exit confirmation
      anywhere else. */
  lemma ExitGameQuitsOnlyFromMainMenu(current: string, custom: string)
    ensures Click(current, ExitGameButton, custom) ==
      (if current == MainMenu then Nav(false, Quit) else Nav(false, Load(Exit)))
  {
  }

  /** Continue resumes the game from the pause menu (time back to normal,
      the pause scene unloaded) and opens level selection anywhere else. */
  lemma ContinueResumesFromPause(current: string, custom: string)
    ensures Click(current, ContinueButton, custom) ==
      (if current == Pause then Nav(true, UnloadPause) else Nav(false, Load(SelectLevel)))
  {
  }

  /** Restart from the pause menu resumes time and reloads the level;
      anywhere else it opens the restart confirmation. */
  lemma RestartFromPause(current: string, custom: string)
    ensures Click(current, RestartButton, custom) ==
      (if current == Pause then Nav(true, Load(Level1)) else Nav(false, Load(Restart)))
  {
  }

  /** The main-menu and home buttons are the same action: load the main
      menu, resuming time only when leaving the pause menu. */
  lemma HomeIsMainMenu(current: string, custom: string)
    ensures Click(current, HomeButton, custom) == Click(current, MainMenuButton, custom)
    ensures Click(current, MainMenuButton, custom) == Nav(current == Pause, Load(MainMenu))
  {
  }
}
