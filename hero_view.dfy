/** The public hero section (components/hero.tsx): the fetched headline, the
    layout of its title, and the "Visual Tuner" contrast game shown over it. */
module HeroView {
  import opened Opt
  import JsText
  import Store
  import AdminHero

  /** What the section shows: `heroContent`. */
  datatype HeroContent = HeroContent(title: string, subtitle: string, yearsExperience: int)

  /** The content before the fetch answers. */
  const Defaults := HeroContent(
    "Creative Visual Designer",
    "Crafting digital experiences with personality, precision, and a touch of the unexpected.",
    13)

  /** `fetchHeroContent`: `.select("*").single()` gives a row only when the
      table holds exactly one, and that row replaces the content wholesale;
      with no row the content stays as it is. */
  function Fetched(rows: seq<Store.Row<AdminHero.HeroRecord>>, readOk: bool, current: HeroContent): (c: HeroContent)
    ensures readOk && |rows| == 1 ==>
              c == HeroContent(rows[0].data.title, rows[0].data.subtitle, rows[0].data.yearsExperience)
    ensures !(readOk && |rows| == 1) ==> c == current
  {
    var data := if readOk then Store.Single(rows) else None;
    if data.Some? then HeroContent(data.value.data.title, data.value.data.subtitle, data.value.data.yearsExperience)
    else current
  }

  /** What the hero editor saves into an empty or one-row table is what the
      section shows next, all three fields of it. */
  lemma {:induction false} SavedHeroShown(before: seq<Store.Row<AdminHero.HeroRecord>>, form: AdminHero.HeroForm, now: string, newId: string)
    requires |before| <= 1
    ensures Fetched(AdminHero.Saved(before, form, true, true, now, newId), true, Defaults)
         == HeroContent(form.title, form.subtitle, form.years)
  {
    var after := AdminHero.Saved(before, form, true, true, now, newId);
    if |before| == 1 {
      AdminHero.UpdatePath(before, form, now, newId);
    } else {
      AdminHero.InsertPath(before, form, true, now, newId);
    }
    assert |after| == 1;
  }

  /** `heroContent.title.split(" ")`: the words of the title, one per line. */
  function TitleWords(title: string): (words: seq<string>)
    ensures |words| >= 1
    ensures forall i :: 0 <= i < |words| ==> ' ' !in words[i]
    ensures JsText.Join(words, ' ') == title
  {
    JsText.Split(title, ' ')
  }

  /** The word at position 1 is set in the accent style. */
  predicate Highlighted(i: nat) {
    i == 1
  }

  /** A line break follows the word at `i` unless it is the last one. */
  predicate BreakAfter(words: seq<string>, i: nat) {
    i < |words| - 1
  }

  /** A title whose words hold no space is laid out as exactly those words,
      the second one highlighted, with a break after every word but the last. */
  lemma TitleLayout(words: seq<string>)
    requires |words| >= 1
    requires forall i :: 0 <= i < |words| ==> ' ' !in words[i]
    ensures TitleWords(JsText.Join(words, ' ')) == words
    ensures forall i: nat :: i < |words| ==> (BreakAfter(words, i) <==> i != |words| - 1)
  {
    JsText.SplitJoin(words, ' ');
  }

  /** The default title shows "Creative", a highlighted "Visual" and
      "Designer", on three lines. */
  lemma DefaultTitle()
    ensures TitleWords(Defaults.title) == ["Creative", "Visual", "Designer"]
    ensures Highlighted(1) && TitleWords(Defaults.title)[1] == "Visual"
  {
    var words := ["Creative", "Visual", "Designer"];
    assert JsText.Join(words, ' ') == Defaults.title by {
      assert words[1..] == ["Visual", "Designer"];
      assert words[1..][1..] == ["Designer"];
    }
    TitleLayout(words);
  }

  /** The slider's range: `min="0"`, `max="100"`. */
  const SliderMin := 0
  const SliderMax := 100

  /** The contrast ratio on display, in tenths: `1 + (contrast / 100) * 20`
      shown with one decimal. */
  function RatioTenths(contrast: int): (t: int)
    ensures 0 <= contrast ==> t >= 10
    ensures SliderMin <= contrast <= SliderMax ==> 10 <= t <= 210
    ensures t % 2 == 0
  {
    10 + 2 * contrast
  }

  /** `isAccessible`: the ratio is at least 4.5 to 1. */
  predicate IsAccessible(contrast: int)
    ensures IsAccessible(contrast) ==> contrast >= 18
    ensures contrast >= 18 ==> IsAccessible(contrast)
  {
    RatioTenths(contrast) >= 45
  }

  /** A ratio of 4.5 is reached exactly from slider position 18 on. */
  lemma AccessibleIffThreshold(contrast: int)
    ensures IsAccessible(contrast) <==> contrast >= 18
  {
  }

  /** The slider's extremes show 1.0:1 and 21.0:1, and its starting position fails. */
  lemma RatioEnds()
    ensures RatioTenths(SliderMin) == 10 && RatioTenths(SliderMax) == 210
    ensures !IsAccessible(InitialContrast)
  {
  }

  /** The slider's starting position: `useState(10)`. */
  const InitialContrast := 10

  /** `isSuccess` after the slider has been moved to each value of `moves` in
      turn, starting from `start`: once set it stays set. */
  function SuccessAfter(start: bool, moves: seq<int>): (r: bool)
    ensures start ==> r
    ensures (forall i :: 0 <= i < |moves| ==> moves[i] < 18) ==> r == start
    ensures |moves| > 0 && moves[|moves| - 1] >= 18 ==> r
    decreases |moves|
  {
    if moves == [] then start
    else SuccessAfter(start || moves[0] >= 18, moves[1..])
  }

  /** `isSuccess` ends up set exactly when it was set already or some move
      reached position 18. */
  lemma {:induction false} SuccessLatches(start: bool, moves: seq<int>)
    ensures SuccessAfter(start, moves) <==> start || exists i :: 0 <= i < |moves| && moves[i] >= 18
    decreases |moves|
  {
    if moves != [] {
      var t := moves[1..];
      SuccessLatches(start || moves[0] >= 18, t);
      if exists i :: 0 <= i < |t| && t[i] >= 18 {
        var i :| 0 <= i < |t| && t[i] >= 18;
        assert moves[i + 1] >= 18;
      }
      if exists i :: 0 <= i < |moves| && moves[i] >= 18 {
        var i :| 0 <= i < |moves| && moves[i] >= 18;
        if i > 0 {
          assert t[i - 1] >= 18;
        }
      }
    }
  }

  /** The latch outlives accessibility: sliding to 30 and back to 5 leaves
      `isSuccess` set while the ratio fails again. */
  lemma LatchOutlivesAccessibility()
    ensures SuccessAfter(false, [30, 5]) && !IsAccessible(5)
  {
    assert [30, 5][1..] == [5];
  }

  /** The game's state. */
  class Game {
    var contrast: int
    var isSuccess: bool
    var showGame: bool
    var gameComplete: bool

    /** Once the game is complete it is never on screen. */
    predicate Valid()
      reads this
    {
      gameComplete ==> !showGame
    }

    /** The "ENTER PORTFOLIO" button: on screen only with the game and an accessible ratio. */
    predicate ShowsEnterButton()
      reads this
      ensures ShowsEnterButton() ==> showGame && contrast >= 18
    {
      showGame && IsAccessible(contrast)
    }

    constructor ()
      ensures Valid()
      ensures contrast == InitialContrast && !isSuccess && !showGame && !gameComplete
    {
      contrast := InitialContrast;
      isSuccess := false;
      showGame := false;
      gameComplete := false;
    }

    /** The popup timer going off: the game appears unless it was completed. */
    method TimerFires()
      requires Valid()
      modifies this
      ensures Valid()
      ensures showGame == (old(showGame) || !gameComplete)
      ensures contrast == old(contrast) && isSuccess == old(isSuccess) && gameComplete == old(gameComplete)
    {
      if !gameComplete {
        showGame := true;
      }
    }

    /** `handleSliderChange`: the contrast follows the slider and `isSuccess`
      latches the first time it reaches 18. */
    method SliderChange(value: int)
      requires Valid()
      requires SliderMin <= value <= SliderMax
      modifies this
      ensures Valid()
      ensures contrast == value
      ensures isSuccess == SuccessAfter(old(isSuccess), [value])
      ensures ShowsEnterButton() <==> showGame && value >= 18
      ensures showGame == old(showGame) && gameComplete == old(gameComplete)
    {
      contrast := value;
      if value >= 18 && !isSuccess {
        isSuccess := true;
      }
    }

    /** `completeGame` (the backdrop, the close button, the enter button). */
    method CompleteGame()
      requires Valid()
      modifies this
      ensures Valid()
      ensures gameComplete && !showGame
      ensures contrast == old(contrast) && isSuccess == old(isSuccess)
    {
      gameComplete := true;
      showGame := false;
    }
  }
}
