/** The tooltip: hover rules on desktop, tap rules on mobile, and the
    document listener that closes an open mobile tooltip on a press outside
    the bubble. Each event sees the state left by the previous one. */
module Tooltip {

  /** The width under which the tooltip follows the mobile rules. */
  const MobileWidth := 768

  /** The bubble's `pointerEvents` style: it takes taps only on mobile. */
  function PointerEvents(isMobile: bool): (r: string)
    ensures isMobile ==> r == "auto"
    ensures !isMobile ==> r == "none"
  {
    if isMobile then "auto" else "none"
  }

  class TooltipState {
    var isVisible: bool
    var isMobile: bool

    /** The document `mousedown` listener is installed exactly while the
      tooltip is visible on mobile. */
    predicate OutsideListenerActive()
      reads this
    {
      isVisible && isMobile
    }

    /** Hidden at first; the mount effect measures the window once. */
    constructor (innerWidth: int)
      ensures !isVisible
      ensures isMobile <==> innerWidth < MobileWidth
    {
      isVisible := false;
      isMobile := innerWidth < MobileWidth;
    }

    /** `checkMobile` on resize; visibility is kept. */
    method Resize(innerWidth: int)
      modifies this
      ensures isMobile <==> innerWidth < MobileWidth
      ensures isVisible == old(isVisible)
    {
      isMobile := innerWidth < MobileWidth;
    }

    /** Hovering shows the tooltip on desktop and does nothing on mobile. */
    method MouseEnter()
      modifies this
      ensures isMobile == old(isMobile)
      ensures isVisible == if isMobile then old(isVisible) else true
    {
      if !isMobile {
        isVisible := true;
      }
    }

    /** Leaving hides the tooltip on desktop and does nothing on mobile. */
    method MouseLeave()
      modifies this
      ensures isMobile == old(isMobile)
      ensures isVisible == if isMobile then old(isVisible) else false
    {
      if !isMobile {
        isVisible := false;
      }
    }

    /** `handleInteraction`: a click toggles on mobile and does nothing on
      desktop. */
    method Click()
      modifies this
      ensures isMobile == old(isMobile)
      ensures isVisible == if isMobile then !old(isVisible) else old(isVisible)
    {
      if isMobile {
        isVisible := !isVisible;
      }
    }

    /** A `mousedown` anywhere in the document. It reaches the listener only
      while the listener is installed; the bubble is then mounted, and a
      press outside it hides the tooltip. */
    method DocumentMouseDown(insideBubble: bool)
      modifies this
      ensures isMobile == old(isMobile)
      ensures isVisible == if old(OutsideListenerActive()) && !insideBubble then false else old(isVisible)
    {
      if isVisible && isMobile {
        if !insideBubble {
          isVisible := false;
        }
      }
    }
  }

  /** The bubble is on screen only while visible, and it catches presses
      exactly while the outside-press listener is installed: on desktop it
      lets every press through to the page, so the listener is never needed
      there. */
  lemma BubbleInteractiveIffListening(tip: TooltipState)
    ensures (tip.isVisible && PointerEvents(tip.isMobile) == "auto") <==> tip.OutsideListenerActive()
    ensures tip.isVisible && !tip.isMobile ==> PointerEvents(tip.isMobile) == "none" && !tip.OutsideListenerActive()
  {
  }

  /** On mobile, a press somewhere else on the page closes an open
      tooltip. */
  method TapElsewhere(tip: TooltipState)
    requires tip.isMobile && tip.isVisible
    modifies tip
    ensures !tip.isVisible && tip.isMobile
  {
    tip.DocumentMouseDown(false);
  }

  /** On mobile, tapping the trigger of an open tooltip first closes it
      (the press is outside the bubble) and then the click toggles it open
      again, so it stays visible. */
  method TapTriggerWhileOpen(tip: TooltipState)
    requires tip.isMobile && tip.isVisible
    modifies tip
    ensures tip.isVisible && tip.isMobile
  {
    tip.DocumentMouseDown(false);
    tip.Click();
  }

  /** On mobile, tapping the bubble itself keeps it through the press, but
      the click reaches the wrapper and toggles it closed. */
  method TapBubble(tip: TooltipState)
    requires tip.isMobile && tip.isVisible
    modifies tip
    ensures !tip.isVisible && tip.isMobile
  {
    tip.DocumentMouseDown(true);
    tip.Click();
  }

  /** On mobile, tapping the trigger of a closed tooltip opens it: the
      listener is not installed, so only the click acts. */
  method TapTriggerWhileClosed(tip: TooltipState)
    requires tip.isMobile && !tip.isVisible
    modifies tip
    ensures tip.isVisible && tip.OutsideListenerActive()
  {
    tip.DocumentMouseDown(false);
    tip.Click();
  }

  /** On desktop, clicks and presses never change visibility; only hover
      does. */
  method DesktopClick(tip: TooltipState, insideBubble: bool)
    requires !tip.isMobile
    modifies tip
    ensures tip.isVisible == old(tip.isVisible) && !tip.isMobile
  {
    tip.DocumentMouseDown(insideBubble);
    tip.Click();
  }
}
