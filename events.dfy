/**
 * The events the analytics code sends and the sender they are handed to
 * (src/ts/analytics/events/, src/ts/analytics/event-sender.ts). The sender
 * is a sink: it records every event registered with it, in order; the
 * network request it would make is not part of this model.
 */
module Events {

  /** The page context read at send time: `document.referrer` and `location.href`. */
  datatype PageContext = PageContext(referrer: string, url: string)

  datatype PageViewEvent = PageViewEvent(userId: string, referrer: string, url: string)

  /** A scroll-depth milestone: `breakpoint` is the threshold that was reached. */
  datatype PageScrollEvent = PageScrollEvent(userId: string, referrer: string, url: string, breakpoint: int)

  /** The `breakpoint` fields of a run of scroll events, in order. */
  function BreakpointsOf(events: seq<PageScrollEvent>): seq<int>
  {
    seq(|events|, i requires 0 <= i < |events| => events[i].breakpoint)
  }

  /** The event sender, as the sequence of events registered with it so far. */
  class EventSender {
    var pageViews: seq<PageViewEvent>
    var pageScrolls: seq<PageScrollEvent>

    constructor ()
      ensures pageViews == [] && pageScrolls == []
    {
      pageViews, pageScrolls := [], [];
    }

    method RegisterPageView(event: PageViewEvent)
      modifies this
      ensures pageViews == old(pageViews) + [event]
      ensures pageScrolls == old(pageScrolls)
    {
      pageViews := pageViews + [event];
    }

    method RegisterPageScroll(event: PageScrollEvent)
      modifies this
      ensures pageScrolls == old(pageScrolls) + [event]
      ensures pageViews == old(pageViews)
    {
      pageScrolls := pageScrolls + [event];
    }
  }
}
