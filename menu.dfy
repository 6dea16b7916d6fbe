/** The JRPG menu: which screen is shown, the menu cursor, the one-shot
    intro, the Konami-code matcher and the timers that delay each screen
    change. CSS classes and animations are not modelled. */
module Menu {
  import opened Wrappers

  const IntroScreen := "intro-screen"
  const TitleScreen := "title-screen"
  const MainMenu := "main-menu"
  const BioScreen := "bio-screen"

  /** Key codes of Up Up Down Down Left Right Left Right B A. */
  const KonamiCode: seq<int> := [38, 38, 40, 40, 37, 39, 37, 39, 66, 65]

  // ---------------------------------------------------------------------
  // Cursor

  /** Where `navigateMenu(direction)` moves the cursor; `None` when the move
      would leave the list (there is no wrap-around). */
  function NavigateTarget(index: nat, direction: int, count: nat): (r: Option<nat>)
    ensures r.Some? <==> 0 <= index + direction < count
    ensures r.Some? ==> r.value == index + direction
  {
    var next := index + direction;
    if 0 <= next < count then Some(next) else None
  }

  /** From the top, `count - 1` presses of down reach the bottom and one more
      press stays there. */
  lemma NavigateStopsAtEnds(count: nat)
    requires count > 0
    ensures NavigateTarget(0, -1, count) == None
    ensures NavigateTarget(count - 1, 1, count) == None
    ensures forall i: nat :: i + 1 < count ==>
      NavigateTarget(i, 1, count) == Some(i + 1) && NavigateTarget(i + 1, -1, count) == Some(i)
  {
  }

  // ---------------------------------------------------------------------
  // Konami code

  /** One keydown of the matcher: the progress after the key, and whether
      the easter egg fires. A wrong key resets to 0 without being tried as
      the first key of the code. */
  function KonamiStep(progress: nat, keyCode: int): (r: (nat, bool))
    requires progress < |KonamiCode|
    ensures r.0 < |KonamiCode|
    ensures r.1 <==> progress == |KonamiCode| - 1 && keyCode == KonamiCode[progress]
    ensures !r.1 ==> r.0 == if keyCode == KonamiCode[progress] then progress + 1 else 0
    ensures r.1 ==> r.0 == 0
  {
    if keyCode == KonamiCode[progress] then
      if progress + 1 == |KonamiCode| then (0, true) else (progress + 1, false)
    else (0, false)
  }

  /** The matcher run over a sequence of key codes: the final progress and
      how many times the easter egg fired. */
  function KonamiRun(progress: nat, keys: seq<int>): (r: (nat, nat))
    requires progress < |KonamiCode|
    ensures r.0 < |KonamiCode|
    decreases |keys|
  {
    if keys == [] then (progress, 0)
    else
      var (p, fired) := KonamiStep(progress, keys[0]);
      var (q, n) := KonamiRun(p, keys[1..]);
      (q, n + if fired then 1 else 0)
  }

  /** A prefix of the code typed from a fresh start is tracked key by key. */
  lemma {:induction false} KonamiPrefix(k: nat)
    requires k < |KonamiCode|
    ensures KonamiRun(0, KonamiCode[..k]) == (k, 0)
  {
    if k > 0 {
      KonamiPrefix(k - 1);
      KonamiRunSnoc(0, KonamiCode[..k - 1], KonamiCode[k - 1]);
      assert KonamiCode[..k] == KonamiCode[..k - 1] + [KonamiCode[k - 1]];
    }
  }

  /** Running the matcher on `keys + [key]` is one more step after `keys`. */
  lemma {:induction false} KonamiRunSnoc(progress: nat, keys: seq<int>, key: int)
    requires progress < |KonamiCode|
    ensures var (p, n) := KonamiRun(progress, keys);
      var (q, fired) := KonamiStep(p, key);
      KonamiRun(progress, keys + [key]) == (q, n + if fired then 1 else 0)
    decreases |keys|
  {
    if keys == [] {
      assert keys + [key] == [key];
    } else {
      var (p, _) := KonamiStep(progress, keys[0]);
      assert (keys + [key])[1..] == keys[1..] + [key];
      KonamiRunSnoc(p, keys[1..], key);
    }
  }

  /** The whole code from a fresh start fires once and starts over. */
  lemma KonamiFires()
    ensures KonamiRun(0, KonamiCode) == (0, 1)
  {
    KonamiPrefix(9);
    KonamiRunSnoc(0, KonamiCode[..9], KonamiCode[9]);
    assert KonamiCode[..9] + [KonamiCode[9]] == KonamiCode;
  }

  /** One Up too many spoils the code: after Up Up Up the third Up resets the
      progress to 0 rather than keeping two, so the full code that follows
      the extra Up does not fire. */
  lemma KonamiExtraUp()
    ensures KonamiRun(0, [38] + KonamiCode).1 == 0
  {
    var keys := [38] + KonamiCode;
    assert KonamiRun(0, keys[3..]) == (0, 0) by {
      KonamiNeverLeavesZero(keys[3..]);
    }
    assert keys[1..][1..][1..] == keys[3..];
  }

  /** From progress 0, a run of keys that never starts with Up stays at 0;
      in particular none of Down, Left, Right, B, A can get the matcher
      going. */
  lemma {:induction false} KonamiNeverLeavesZero(keys: seq<int>)
    requires forall i :: 0 <= i < |keys| ==> keys[i] != 38
    ensures KonamiRun(0, keys) == (0, 0)
  {
    if keys != [] {
      KonamiNeverLeavesZero(keys[1..]);
    }
  }

  // ---------------------------------------------------------------------
  // Screens and timers

  /** A pending `setTimeout` of the menu script. */
  datatype Timer =
    | IntroAuto            // 4 s after load: finish the intro if not done
    | IntroDone            // 400 ms after `completeIntro`: show the title
    | SelectFlash(target: string)  // 100 ms after a selection
    | Swap(target: string)         // 200 ms after `transitionToScreen`

  datatype Cue = Start | Move | Select | Back | Secret

  datatype Effect = Sound(cue: Cue) | ShowKonami | StartBioDialogue

  class Menu {
    /** Ids of the screens present in the page. */
    const screens: set<string>
    /** Each menu item's `data-target`; "" where it has none. */
    const targets: seq<string>
    var currentScreen: string
    var currentMenuIndex: nat
    /** Which menu items carry the `active` class. */
    var active: seq<bool>
    var konamiProgress: nat
    var introComplete: bool
    var pending: seq<Timer>
    var effects: seq<Effect>

    ghost predicate Valid()
      reads this
    {
      && TitleScreen in screens
      && |active| == |targets|
      && (|targets| > 0 ==> currentMenuIndex < |targets|)
      && konamiProgress < |KonamiCode|
      && (forall k :: 0 <= k < |pending| && pending[k].Swap? ==> pending[k].target in screens)
    }

    /** The state after `init`. The title screen is assumed present (the
        script registers a listener on it unconditionally). */
    constructor (screenIds: set<string>, itemTargets: seq<string>, initiallyActive: seq<bool>)
      requires TitleScreen in screenIds && |initiallyActive| == |itemTargets|
      ensures Valid()
      ensures screens == screenIds && targets == itemTargets && active == initiallyActive
      ensures currentMenuIndex == 0 && konamiProgress == 0 && !introComplete && effects == []
      ensures IntroScreen in screens ==> currentScreen == IntroScreen && pending == [IntroAuto]
      ensures IntroScreen !in screens ==> currentScreen == TitleScreen && pending == []
    {
      screens := screenIds;
      targets := itemTargets;
      active := initiallyActive;
      currentMenuIndex := 0;
      konamiProgress := 0;
      introComplete := false;
      effects := [];
      if IntroScreen in screenIds {
        currentScreen := IntroScreen;
        pending := [IntroAuto];
      } else {
        currentScreen := TitleScreen;
        pending := [];
      }
    }

    /** `completeIntro`: only the first call does anything. */
    method CompleteIntro()
      requires Valid()
      modifies this`introComplete, this`pending
      ensures Valid()
      ensures introComplete
      ensures old(introComplete) ==> pending == old(pending)
      ensures !old(introComplete) ==> pending == old(pending) + [IntroDone]
    {
      if introComplete {
        return;
      }
      introComplete := true;
      pending := pending + [IntroDone];
    }

    /** `transitionToScreen(id)`: nothing when either screen is missing from
        the page (the current one missing makes the script throw); otherwise
        the switch happens when the 200 ms timer fires. */
    method TransitionToScreen(id: string)
      requires Valid()
      modifies this`pending
      ensures Valid()
      ensures id in screens && currentScreen in screens ==> pending == old(pending) + [Swap(id)]
      ensures !(id in screens && currentScreen in screens) ==> pending == old(pending)
    {
      if id !in screens || currentScreen !in screens {
        return;
      }
      pending := pending + [Swap(id)];
    }

    /** `setActiveMenuItem(index)`: exactly item `index` is active. */
    method SetActiveMenuItem(index: nat)
      requires Valid() && index < |targets|
      modifies this`active, this`currentMenuIndex
      ensures Valid()
      ensures currentMenuIndex == index
      ensures |active| == |targets| && forall i :: 0 <= i < |active| ==> (active[i] <==> i == index)
    {
      var flags: seq<bool> := [];
      var i := 0;
      while i < |targets|
        invariant 0 <= i <= |targets| && |flags| == i
        invariant forall k :: 0 <= k < i ==> (flags[k] <==> k == index)
      {
        flags := flags + [i == index];
        i := i + 1;
      }
      active := flags;
      currentMenuIndex := index;
    }

    /** `navigateMenu(direction)`: moves only within the list. */
    method NavigateMenu(direction: int)
      requires Valid()
      modifies this`active, this`currentMenuIndex, this`effects
      ensures Valid()
      ensures NavigateTarget(old(currentMenuIndex), direction, |targets|).None? ==>
        unchanged(this`active, this`currentMenuIndex, this`effects)
      ensures NavigateTarget(old(currentMenuIndex), direction, |targets|).Some? ==>
        && currentMenuIndex == old(currentMenuIndex) + direction
        && (forall i :: 0 <= i < |active| ==> (active[i] <==> i == currentMenuIndex))
        && effects == old(effects) + [Sound(Move)]
    {
      var target := NavigateTarget(currentMenuIndex, direction, |targets|);
      if target.None? {
        return;
      }
      SetActiveMenuItem(target.value);
      effects := effects + [Sound(Move)];
    }

    /** `selectMenuItem`: acts only when the item under the cursor has a
        target (an empty list makes the script throw: nothing happens). */
    method SelectMenuItem()
      requires Valid()
      modifies this`pending, this`effects
      ensures Valid()
      ensures |targets| == 0 || targets[currentMenuIndex] == "" ==>
        pending == old(pending) && effects == old(effects)
      ensures |targets| > 0 && targets[currentMenuIndex] != "" ==>
        && pending == old(pending) + [SelectFlash(targets[currentMenuIndex])]
        && effects == old(effects) + [Sound(Select)]
    {
      if |targets| == 0 {
        return;
      }
      var target := targets[currentMenuIndex];
      if target == "" {
        return;
      }
      effects := effects + [Sound(Select)];
      pending := pending + [SelectFlash(target)];
    }

    /** `startGame` (a click on the title screen, or any key there). */
    method StartGame()
      requires Valid()
      modifies this`pending, this`effects
      ensures Valid()
      ensures currentScreen != TitleScreen ==> pending == old(pending) && effects == old(effects)
      ensures currentScreen == TitleScreen ==>
        && effects == old(effects) + [Sound(Start)]
        && pending == old(pending) + (if MainMenu in screens then [Swap(MainMenu)] else [])
    {
      if currentScreen != TitleScreen {
        return;
      }
      effects := effects + [Sound(Start)];
      TransitionToScreen(MainMenu);
    }

    /** `skipIntro` (a click on the intro, or any key during it). */
    method SkipIntro()
      requires Valid()
      modifies this`introComplete, this`pending
      ensures Valid()
      ensures currentScreen == IntroScreen && !old(introComplete) ==>
        introComplete && pending == old(pending) + [IntroDone]
      ensures !(currentScreen == IntroScreen && !old(introComplete)) ==>
        introComplete == old(introComplete) && pending == old(pending)
    {
      if currentScreen == IntroScreen && !introComplete {
        CompleteIntro();
      }
    }

    /** A click on a back button whose `data-back` is `target`. */
    method BackButton(target: string)
      requires Valid()
      modifies this`pending, this`effects
      ensures Valid()
      ensures effects == old(effects) + [Sound(Back)]
      ensures pending == old(pending) +
        (if target in screens && currentScreen in screens then [Swap(target)] else [])
    {
      effects := effects + [Sound(Back)];
      TransitionToScreen(target);
    }

    /** The pointer enters menu item `index`. */
    method ItemHovered(index: nat)
      requires Valid() && index < |targets|
      modifies this`active, this`currentMenuIndex, this`effects
      ensures Valid()
      ensures currentScreen != MainMenu ==> unchanged(this`active, this`currentMenuIndex, this`effects)
      ensures currentScreen == MainMenu ==>
        && currentMenuIndex == index
        && (forall i :: 0 <= i < |active| ==> (active[i] <==> i == index))
        && effects == old(effects) + [Sound(Move)]
    {
      if currentScreen != MainMenu {
        return;
      }
      SetActiveMenuItem(index);
      effects := effects + [Sound(Move)];
    }

    /** A click on a menu item selects the item under the cursor, which is
        not necessarily the one clicked. */
    method ItemClicked()
      requires Valid()
      modifies this`pending, this`effects
      ensures Valid()
      ensures currentScreen != MainMenu || |targets| == 0 || targets[currentMenuIndex] == "" ==>
        pending == old(pending) && effects == old(effects)
      ensures currentScreen == MainMenu && |targets| > 0 && targets[currentMenuIndex] != "" ==>
        && pending == old(pending) + [SelectFlash(targets[currentMenuIndex])]
        && effects == old(effects) + [Sound(Select)]
    {
      if currentScreen == MainMenu {
        SelectMenuItem();
      }
    }

    /** `handleKeyNavigation`: arrows and Enter/Space act only on the main
        menu. */
    method HandleKeyNavigation(key: string)
      requires Valid()
      modifies this`active, this`currentMenuIndex, this`pending, this`effects
      ensures Valid()
      ensures currentScreen != MainMenu || key !in {"ArrowUp", "ArrowDown", "Enter", " "} ==>
        unchanged(this`active, this`currentMenuIndex, this`pending, this`effects)
      ensures currentScreen == MainMenu && (key == "ArrowUp" || key == "ArrowDown") ==>
        var moved := NavigateTarget(old(currentMenuIndex), if key == "ArrowUp" then -1 else 1, |targets|);
        currentMenuIndex == if moved.Some? then moved.value else old(currentMenuIndex)
    {
      if currentScreen != MainMenu {
        return;
      }
      if key == "ArrowUp" {
        NavigateMenu(-1);
      } else if key == "ArrowDown" {
        NavigateMenu(1);
      } else if key == "Enter" || key == " " {
        SelectMenuItem();
      }
    }

    /** Escape goes back to the main menu from any screen but the title and
        the main menu themselves. */
    method EscapeKey(key: string)
      requires Valid()
      modifies this`pending, this`effects
      ensures Valid()
      ensures key == "Escape" && currentScreen != TitleScreen && currentScreen != MainMenu ==>
        && effects == old(effects) + [Sound(Back)]
        && pending == old(pending) +
             (if MainMenu in screens && currentScreen in screens then [Swap(MainMenu)] else [])
      ensures !(key == "Escape" && currentScreen != TitleScreen && currentScreen != MainMenu) ==>
        pending == old(pending) && effects == old(effects)
    {
      if key == "Escape" && currentScreen != TitleScreen && currentScreen != MainMenu {
        effects := effects + [Sound(Back)];
        TransitionToScreen(MainMenu);
      }
    }

    /** The Konami listener. */
    method KonamiKey(keyCode: int)
      requires Valid()
      modifies this`konamiProgress, this`effects
      ensures Valid()
      ensures (konamiProgress, old(konamiProgress) == |KonamiCode| - 1 && keyCode == KonamiCode[old(konamiProgress)])
              == KonamiStep(old(konamiProgress), keyCode)
      ensures effects == old(effects) + (if KonamiStep(old(konamiProgress), keyCode).1
                                         then [Sound(Secret), ShowKonami] else [])
    {
      var (next, fired) := KonamiStep(konamiProgress, keyCode);
      konamiProgress := next;
      if fired {
        effects := effects + [Sound(Secret), ShowKonami];
      }
    }

    /** One keydown: the listeners run in the order the script registers
        them (intro, title, navigation, Escape, Konami). Screen changes all
        wait for timers, so every listener sees the same `currentScreen`. */
    method KeyDown(key: string, keyCode: int)
      requires Valid()
      modifies this`introComplete, this`active, this`currentMenuIndex, this`pending,
               this`effects, this`konamiProgress
      ensures Valid()
      ensures currentScreen == old(currentScreen)
      ensures konamiProgress == KonamiStep(old(konamiProgress), keyCode).0
    {
      SkipIntro();
      StartGame();
      HandleKeyNavigation(key);
      EscapeKey(key);
      KonamiKey(keyCode);
    }

    /** Timer `k` fires and leaves the pending list. */
    method FireTimer(k: nat)
      requires Valid() && k < |pending|
      modifies this`currentScreen, this`introComplete, this`pending, this`effects
      ensures Valid()
      ensures old(pending[k]).Swap? ==> currentScreen == old(pending[k]).target
      ensures old(pending[k]).IntroDone? ==> currentScreen == TitleScreen
      ensures old(pending[k]).IntroAuto? || old(pending[k]).SelectFlash? ==>
        currentScreen == old(currentScreen)
      ensures old(pending[k]).IntroAuto? ==> introComplete
      ensures !old(pending[k]).IntroAuto? ==> introComplete == old(introComplete)
      ensures effects == old(effects) +
        (if old(pending[k]) == SelectFlash(BioScreen) then [StartBioDialogue] else [])
      ensures var rest := old(pending[..k] + pending[k + 1..]);
        pending == rest + match old(pending[k])
          case IntroAuto => if old(introComplete) then [] else [IntroDone]
          case SelectFlash(target) =>
            if target in screens && old(currentScreen) in screens then [Swap(target)] else []
          case _ => []
    {
      var t := pending[k];
      pending := pending[..k] + pending[k + 1..];
      match t
      case IntroAuto =>
        if !introComplete {
          CompleteIntro();
        }
      case IntroDone =>
        currentScreen := TitleScreen;
      case SelectFlash(target) =>
        TransitionToScreen(target);
        if target == BioScreen {
          effects := effects + [StartBioDialogue];
        }
      case Swap(target) =>
        currentScreen := target;
    }
  }
}
