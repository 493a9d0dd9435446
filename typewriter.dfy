/**
 * The typewriter reveal of the preview: the revealed prefix `displayText`,
 * the position `currentIndex` and the interval timer that advances them.
 * The timer is modelled by explicit calls to `Tick`; the effect that is
 * re-run when the text or the animation type changes is `Render`.
 */
module Typewriter {
  import opened Types
  import opened Preview

  /** The state the reveal carries: what is shown, how far, and whether the timer still fires. */
  datatype Reveal = Reveal(displayText: string, currentIndex: nat, timerActive: bool)

  /** The effect on entering typewriter mode: nothing shown, position 0, timer started. */
  function Start(): Reveal {
    Reveal("", 0, true)
  }

  /**
   * One interval tick: below the end of the text it reveals one more
   * character; at the end it clears the timer and changes nothing else.
   */
  function TickStep(r: Reveal, text: string): (n: Reveal)
    ensures !r.timerActive ==> n == r
    ensures r.timerActive && r.currentIndex < |text| ==>
      n == Reveal(text[..r.currentIndex + 1], r.currentIndex + 1, true)
    ensures r.timerActive && r.currentIndex >= |text| ==>
      n == r.(timerActive := false)
  {
    if !r.timerActive then r
    else if r.currentIndex < |text| then Reveal(text[..r.currentIndex + 1], r.currentIndex + 1, true)
    else r.(timerActive := false)
  }

  /** The state after k ticks since the mode was entered. */
  function Ticks(text: string, k: nat): Reveal {
    if k == 0 then Start() else TickStep(Ticks(text, k - 1), text)
  }

  /** Up to the length of the text, every tick reveals exactly one more character. */
  lemma {:induction false} RevealProgress(text: string, k: nat)
    requires k <= |text|
    ensures Ticks(text, k) == Reveal(text[..k], k, true)
  {
    if k > 0 {
      RevealProgress(text, k - 1);
    }
  }

  /** Any tick after the whole text is shown stops the timer; the full text stays shown. */
  lemma {:induction false} RevealStops(text: string, k: nat)
    requires k > |text|
    ensures Ticks(text, k) == Reveal(text, |text|, false)
  {
    if k == |text| + 1 {
      RevealProgress(text, |text|);
      assert text[..|text|] == text;
    } else {
      RevealStops(text, k - 1);
    }
  }

  /** Exactly |text| ticks change what is shown: tick k+1 differs from tick k iff k < |text|. */
  lemma EffectiveTicks(text: string, k: nat)
    ensures Ticks(text, k + 1).displayText != Ticks(text, k).displayText <==> k < |text|
  {
    if k < |text| {
      RevealProgress(text, k);
      RevealProgress(text, k + 1);
      assert |text[..k + 1]| != |text[..k]|;
    } else if k == |text| {
      RevealProgress(text, k);
      RevealStops(text, k + 1);
      assert text[..k] == text;
    } else {
      RevealStops(text, k);
      RevealStops(text, k + 1);
    }
  }

  /** The mounted preview's reveal state and the dependencies its effect last ran with. */
  class TypewriterPreview {
    var text: string
    var animationType: AnimationType
    var displayText: string
    var currentIndex: nat
    var timerActive: bool

    /**
     * In typewriter mode a prefix of the text is shown, as long as the
     * position says; in every other mode the whole text, with no timer.
     */
    predicate Valid()
      reads this
    {
      && (animationType == TypewriterAnimation ==>
            currentIndex <= |text| && displayText == text[..currentIndex])
      && (animationType != TypewriterAnimation ==> displayText == text && !timerActive)
    }

    function State(): Reveal
      reads this
    {
      Reveal(displayText, currentIndex, timerActive)
    }

    /** Mounting: the state starts as ""/0 and the effect runs once for the settings. */
    constructor Mount(s: HeadlineSettings)
      ensures Valid()
      ensures text == s.text && animationType == s.animationType
      ensures s.animationType == TypewriterAnimation ==> State() == Start()
      ensures s.animationType != TypewriterAnimation ==> State() == Reveal(s.text, 0, false)
    {
      text := s.text;
      animationType := s.animationType;
      displayText := "";
      currentIndex := 0;
      timerActive := false;
      if s.animationType == TypewriterAnimation {
        displayText := "";
        currentIndex := 0;
        timerActive := true;
      } else {
        displayText := s.text;
      }
    }

    /**
     * A render with new settings: when the text or the animation type
     * changed, the previous timer is cleared and the effect runs again,
     * restarting the reveal in typewriter mode and showing the whole text
     * otherwise; when neither changed, nothing happens.
     */
    method Render(s: HeadlineSettings)
      requires Valid()
      modifies this
      ensures Valid()
      ensures text == s.text && animationType == s.animationType
      ensures old(text) == s.text && old(animationType) == s.animationType ==> State() == old(State())
      ensures (old(text) != s.text || old(animationType) != s.animationType) && s.animationType == TypewriterAnimation ==>
        State() == Start()
      ensures s.animationType != TypewriterAnimation ==> displayText == s.text && !timerActive
      ensures s.animationType != TypewriterAnimation ==> currentIndex == old(currentIndex)
    {
      if text != s.text || animationType != s.animationType {
        timerActive := false;
        text := s.text;
        animationType := s.animationType;
        if s.animationType == TypewriterAnimation {
          displayText := "";
          currentIndex := 0;
          timerActive := true;
        } else {
          displayText := s.text;
        }
      }
    }

    /** One firing of the interval timer. */
    method Tick()
      requires Valid()
      modifies this
      ensures Valid()
      ensures text == old(text) && animationType == old(animationType)
      ensures State() == TickStep(old(State()), text)
    {
      if timerActive {
        if currentIndex < |text| {
          displayText := text[..currentIndex + 1];
          currentIndex := currentIndex + 1;
        } else {
          timerActive := false;
        }
      }
    }

    /** Unmounting runs the effect's cleanup, which clears the timer. */
    method Unmount()
      requires Valid()
      modifies this
      ensures Valid()
      ensures State() == old(State()).(timerActive := false)
      ensures text == old(text) && animationType == old(animationType)
    {
      timerActive := false;
    }

    /** The children of the headline for the current render. */
    function Shown(s: HeadlineSettings): (c: Content)
      reads this
      requires Valid() && s.text == text && s.animationType == animationType
      ensures s.animationType == TypewriterAnimation ==> c == Typing(text[..currentIndex])
      ensures s.animationType != TypewriterAnimation ==> c.Segmented? && Concat(c.segments) == s.text
    {
      PreviewContent(s, displayText)
    }
  }
}
