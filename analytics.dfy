/**
 * Scroll-depth milestones (src/ts/analytics/index.ts).
 *
 * After a warm-up delay the fixed thresholds are filtered down to the ones
 * at or above the scroll percentage seen at that moment; a scroll listener
 * then walks a cursor along that list, sending one page-scroll event per
 * notification whose percentage has reached the threshold at the cursor, and
 * removes itself once the cursor has passed the end of the list.
 *
 * The scroll percentage is an input (a `real`), as are the page context and
 * the random string behind a freshly generated user id.
 */
module Analytics {
  import opened Events
  import opened IdGenerator

  /** The scroll-depth thresholds, in percent, in ascending order. */
  const BASE_BREAKPOINTS: seq<int> := [25, 50, 75, 90, 99]

  predicate StrictlyAscending(s: seq<int>)
  {
    forall i, j :: 0 <= i < j < |s| ==> s[i] < s[j]
  }

  // ---------------------------------------------------------------------
  // The initial filter
  // ---------------------------------------------------------------------

  /** `bps.filter(it => it >= initial)`. */
  function AtLeast(bps: seq<int>, initial: real): (r: seq<int>)
    ensures |r| <= |bps|
    ensures forall x :: x in r <==> x in bps && x as real >= initial
  {
    if bps == [] then []
    else if bps[0] as real >= initial then [bps[0]] + AtLeast(bps[1..], initial)
    else AtLeast(bps[1..], initial)
  }

  /** When every threshold is kept, the filter returns its input. */
  lemma {:induction false} AtLeastKeepsAll(bps: seq<int>, initial: real)
    requires forall i :: 0 <= i < |bps| ==> bps[i] as real >= initial
    ensures AtLeast(bps, initial) == bps
  {
    if bps != [] {
      AtLeastKeepsAll(bps[1..], initial);
    }
  }

  /**
   * On an ascending list the filter drops a prefix of thresholds, all below
   * the initial percentage, and keeps the rest in order: its result is a
   * suffix of the list.
   */
  lemma {:induction false} AscendingFilterIsSuffix(bps: seq<int>, initial: real)
    requires StrictlyAscending(bps)
    ensures var r := AtLeast(bps, initial);
      r == bps[|bps| - |r|..] &&
      forall i :: 0 <= i < |bps| - |r| ==> (bps[i] as real) < initial
  {
    if bps != [] {
      if bps[0] as real >= initial {
        AtLeastKeepsAll(bps, initial);
      } else {
        AscendingFilterIsSuffix(bps[1..], initial);
      }
    }
  }

  /**
   * The list the watcher starts with: the base thresholds at or above the
   * initial percentage, a suffix of the base list, strictly ascending.
   */
  function InitialBreakpoints(initialPercent: real): (r: seq<int>)
    ensures |r| <= |BASE_BREAKPOINTS| && r == BASE_BREAKPOINTS[|BASE_BREAKPOINTS| - |r|..]
    ensures forall x :: x in r <==> x in BASE_BREAKPOINTS && x as real >= initialPercent
    ensures forall i :: 0 <= i < |BASE_BREAKPOINTS| - |r| ==> (BASE_BREAKPOINTS[i] as real) < initialPercent
    ensures StrictlyAscending(r)
  {
    AscendingFilterIsSuffix(BASE_BREAKPOINTS, initialPercent);
    AtLeast(BASE_BREAKPOINTS, initialPercent)
  }

  /** Starting at 60%, only 75, 90 and 99 remain. */
  lemma StartAtSixtyKeepsUpperThresholds()
    ensures InitialBreakpoints(60.0) == [75, 90, 99]
  {
  }

  /** Starting at the top of the page, every threshold remains. */
  lemma StartAtTopKeepsAllThresholds()
    ensures InitialBreakpoints(0.0) == BASE_BREAKPOINTS
  {
  }

  // ---------------------------------------------------------------------
  // One scroll notification, and a run of them
  // ---------------------------------------------------------------------

  /** What the listener does on one notification. */
  datatype Reaction =
    | Unsubscribe        // the cursor is past the end: remove the listener
    | Wait               // the threshold at the cursor is not reached yet
    | Emit(breakpoint: int)  // send one page-scroll event and advance the cursor

  function React(bps: seq<int>, cursor: nat, percent: real): Reaction
  {
    if cursor >= |bps| then Unsubscribe
    else if percent < bps[cursor] as real then Wait
    else Emit(bps[cursor])
  }

  /** Where a reaction leaves the cursor. */
  function Advance(cursor: nat, reaction: Reaction): nat
  {
    if reaction.Emit? then cursor + 1 else cursor
  }

  /** The effect of a run of notifications: breakpoints sent, final cursor, listener still registered. */
  datatype Trace = Trace(emitted: seq<int>, cursor: nat, subscribed: bool)

  /** Feeds the scroll percentages of successive notifications to the listener. */
  function Run(bps: seq<int>, cursor: nat, subscribed: bool, percents: seq<real>): Trace
    decreases |percents|
  {
    if percents == [] then Trace([], cursor, subscribed)
    else
      var reaction := React(bps, cursor, percents[0]);
      var rest := Run(bps, Advance(cursor, reaction), subscribed && !reaction.Unsubscribe?, percents[1..]);
      if reaction.Emit? then Trace([reaction.breakpoint] + rest.emitted, rest.cursor, rest.subscribed)
      else rest
  }

  /**
   * Over any run of notifications the events sent carry exactly the
   * thresholds between the start and the end cursor, in list order, and the
   * cursor never passes the end of the list.
   */
  lemma {:induction false} RunEmitsNextThresholds(bps: seq<int>, cursor: nat, subscribed: bool, percents: seq<real>)
    requires cursor <= |bps|
    ensures var t := Run(bps, cursor, subscribed, percents);
      cursor <= t.cursor <= |bps| && t.emitted == bps[cursor..t.cursor]
    decreases |percents|
  {
    if percents != [] {
      var reaction := React(bps, cursor, percents[0]);
      RunEmitsNextThresholds(bps, Advance(cursor, reaction), subscribed && !reaction.Unsubscribe?, percents[1..]);
    }
  }

  /** Each notification sends at most one event, however far the page has scrolled. */
  lemma {:induction false} RunEmitsAtMostOnePerNotification(bps: seq<int>, cursor: nat, subscribed: bool, percents: seq<real>)
    ensures |Run(bps, cursor, subscribed, percents).emitted| <= |percents|
    decreases |percents|
  {
    if percents != [] {
      var reaction := React(bps, cursor, percents[0]);
      RunEmitsAtMostOnePerNotification(bps, Advance(cursor, reaction), subscribed && !reaction.Unsubscribe?, percents[1..]);
    }
  }

  /** On an ascending list the thresholds sent are strictly ascending: none is sent twice. */
  lemma RunEmitsAscending(bps: seq<int>, cursor: nat, subscribed: bool, percents: seq<real>)
    requires cursor <= |bps| && StrictlyAscending(bps)
    ensures StrictlyAscending(Run(bps, cursor, subscribed, percents).emitted)
  {
    RunEmitsNextThresholds(bps, cursor, subscribed, percents);
  }

  /**
   * A notification whose percentage has reached the threshold at the cursor
   * sends only that threshold and advances the cursor by one, however many
   * later thresholds it has also passed.
   */
  lemma JumpEmitsOnlyCursorThreshold(bps: seq<int>, cursor: nat, percent: real)
    requires cursor < |bps|
    requires bps[cursor] as real <= percent
    ensures Run(bps, cursor, true, [percent]) == Trace([bps[cursor]], cursor + 1, true)
  {
  }

  /** Jumping from the top to 80% passes 25, 50 and 75 but sends only 25. */
  lemma JumpToEightySendsOnlyFirstThreshold()
    ensures Run(BASE_BREAKPOINTS, 0, true, [80.0]) == Trace([25], 1, true)
  {
  }

  /** Once the cursor is past the end, notifications send nothing and the listener is removed. */
  lemma {:induction false} ExhaustedSendsNothing(bps: seq<int>, cursor: nat, subscribed: bool, percents: seq<real>)
    requires cursor >= |bps|
    ensures Run(bps, cursor, subscribed, percents).emitted == []
    ensures Run(bps, cursor, subscribed, percents).cursor == cursor
    ensures percents != [] ==> !Run(bps, cursor, subscribed, percents).subscribed
    decreases |percents|
  {
    if percents != [] {
      ExhaustedSendsNothing(bps, cursor, false, percents[1..]);
    }
  }

  /** Running two batches of notifications one after the other is running them together. */
  lemma {:induction false} RunConcat(bps: seq<int>, cursor: nat, subscribed: bool, first: seq<real>, second: seq<real>)
    ensures var t1 := Run(bps, cursor, subscribed, first);
      var t2 := Run(bps, t1.cursor, t1.subscribed, second);
      Run(bps, cursor, subscribed, first + second) == Trace(t1.emitted + t2.emitted, t2.cursor, t2.subscribed)
    decreases |first|
  {
    if first == [] {
      assert first + second == second;
    } else {
      var reaction := React(bps, cursor, first[0]);
      assert (first + second)[1..] == first[1..] + second;
      RunConcat(bps, Advance(cursor, reaction), subscribed && !reaction.Unsubscribe?, first[1..], second);
    }
  }

  /**
   * After the listener has removed itself no further event is sent: the
   * events of any longer run are those sent up to the removal.
   */
  lemma NothingSentAfterUnsubscribe(bps: seq<int>, cursor: nat, earlier: seq<real>, later: seq<real>)
    requires cursor <= |bps|
    requires !Run(bps, cursor, true, earlier).subscribed
    ensures Run(bps, cursor, true, earlier + later).emitted == Run(bps, cursor, true, earlier).emitted
  {
    var t1 := Run(bps, cursor, true, earlier);
    RunUnsubscribesOnlyWhenExhausted(bps, cursor, true, earlier);
    RunConcat(bps, cursor, true, earlier, later);
    ExhaustedSendsNothing(bps, t1.cursor, t1.subscribed, later);
  }

  /** The listener is removed only once the cursor has passed the end of the list. */
  lemma {:induction false} RunUnsubscribesOnlyWhenExhausted(bps: seq<int>, cursor: nat, subscribed: bool, percents: seq<real>)
    requires cursor <= |bps|
    ensures var t := Run(bps, cursor, subscribed, percents);
      subscribed && !t.subscribed ==> t.cursor == |bps|
    decreases |percents|
  {
    if percents != [] {
      var reaction := React(bps, cursor, percents[0]);
      RunUnsubscribesOnlyWhenExhausted(bps, Advance(cursor, reaction), subscribed && !reaction.Unsubscribe?, percents[1..]);
      if reaction.Unsubscribe? {
        ExhaustedSendsNothing(bps, cursor, false, percents[1..]);
      }
    }
  }

  /**
   * Scrolling down steadily through 0, 30, 60, 80, 95 and 100 percent from
   * the top of the page sends all five thresholds, once each, in order.
   */
  lemma SteadyScrollSendsEveryThreshold()
    ensures Run(InitialBreakpoints(0.0), 0, true, [0.0, 30.0, 60.0, 80.0, 95.0, 100.0])
         == Trace([25, 50, 75, 90, 99], 5, true)
  {
  }

  /** A watcher started at 60 percent never sends 25 or 50, whatever the page does afterwards. */
  lemma StartAtSixtyNeverSendsLowThresholds(percents: seq<real>)
    ensures var emitted := Run(InitialBreakpoints(60.0), 0, true, percents).emitted;
      25 !in emitted && 50 !in emitted
  {
    StartAtSixtyKeepsUpperThresholds();
    RunEmitsNextThresholds(InitialBreakpoints(60.0), 0, true, percents);
  }

  // ---------------------------------------------------------------------
  // The listener as state (watchForScroll), and the page-load wiring
  // ---------------------------------------------------------------------

  /** The `watchForScroll` closure: its thresholds, its cursor and whether it is registered. */
  class ScrollWatcher {
    const breakpoints: seq<int>
    const sender: EventSender
    var currentIndex: nat
    var subscribed: bool
    /** How many scroll events the sender held when the watcher started. */
    ghost const sentBefore: nat

    /**
     * The cursor stays within the list, the scroll events sent since the
     * start carry exactly the thresholds before the cursor, and the listener
     * is removed only once the list is used up.
     */
    ghost predicate Valid()
      reads this, sender
    {
      && currentIndex <= |breakpoints|
      && sentBefore <= |sender.pageScrolls|
      && BreakpointsOf(sender.pageScrolls[sentBefore..]) == breakpoints[..currentIndex]
      && (!subscribed ==> currentIndex == |breakpoints|)
    }

    /** The thresholds of the scroll events this watcher has sent. */
    ghost function Emitted(): seq<int>
      reads this, sender
      requires Valid()
    {
      BreakpointsOf(sender.pageScrolls[sentBefore..])
    }

    /** `watchForScroll`: the cursor starts at 0 and the listener is registered. */
    constructor (breakpoints: seq<int>, sender: EventSender)
      ensures Valid()
      ensures this.breakpoints == breakpoints && this.sender == sender
      ensures currentIndex == 0 && subscribed && Emitted() == []
    {
      this.breakpoints := breakpoints;
      this.sender := sender;
      currentIndex := 0;
      subscribed := true;
      sentBefore := |sender.pageScrolls|;
    }

    /**
     * The scroll callback. `percent` is the scroll percentage of this
     * notification, `page` the referrer and URL at this moment, and
     * `randomBase36` the random string used if a user id must be generated.
     */
    method OnScroll(percent: real, page: PageContext, storage: LocalStorage, randomBase36: string)
      requires Valid()
      modifies this, sender, storage
      ensures Valid()
      ensures currentIndex == Advance(old(currentIndex), React(breakpoints, old(currentIndex), percent))
      ensures subscribed == (old(subscribed) && !React(breakpoints, old(currentIndex), percent).Unsubscribe?)
      ensures sender.pageViews == old(sender.pageViews)
      // past the end of the list, or below the threshold: nothing is sent and the storage is untouched
      ensures !React(breakpoints, old(currentIndex), percent).Emit? ==>
        sender.pageScrolls == old(sender.pageScrolls) && storage.items == old(storage.items)
      // otherwise exactly one event, carrying the threshold at the cursor and the current user id
      ensures React(breakpoints, old(currentIndex), percent).Emit? ==>
        var lookup := GetOrCreate(old(storage.items), randomBase36);
        && storage.items == lookup.items
        && sender.pageScrolls == old(sender.pageScrolls)
             + [PageScrollEvent(lookup.id, page.referrer, page.url, old(breakpoints[currentIndex]))]
      ensures Emitted() == old(Emitted()) + Run(breakpoints, old(currentIndex), old(subscribed), [percent]).emitted
    {
      if currentIndex >= |breakpoints| {
        subscribed := false;
        return;
      }
      if percent < breakpoints[currentIndex] as real {
        return;
      }
      var userId := GetUserId(storage, randomBase36);
      sender.RegisterPageScroll(PageScrollEvent(userId, page.referrer, page.url, breakpoints[currentIndex]));
      assert sender.pageScrolls[sentBefore..] == old(sender.pageScrolls[sentBefore..]) + [sender.pageScrolls[|sender.pageScrolls| - 1]];
      assert breakpoints[..currentIndex + 1] == breakpoints[..currentIndex] + [breakpoints[currentIndex]];
      currentIndex := currentIndex + 1;
    }
  }

  /**
   * `analyticsInit`, up to the timer: resolves the user id and sends one
   * page-view event with the current referrer and URL.
   */
  method AnalyticsInit(storage: LocalStorage, page: PageContext, randomBase36: string) returns (sender: EventSender)
    modifies storage
    ensures fresh(sender)
    ensures var lookup := GetOrCreate(old(storage.items), randomBase36);
      && storage.items == lookup.items
      && sender.pageViews == [PageViewEvent(lookup.id, page.referrer, page.url)]
      && sender.pageScrolls == []
  {
    sender := new EventSender();
    var userId := GetUserId(storage, randomBase36);
    sender.RegisterPageView(PageViewEvent(userId, page.referrer, page.url));
  }

  /**
   * The timer callback of `analyticsInit`: filters the thresholds by the
   * scroll percentage at that moment and starts watching.
   */
  method StartScrollWatch(sender: EventSender, initialPercent: real) returns (watcher: ScrollWatcher)
    ensures fresh(watcher) && watcher.Valid()
    ensures watcher.breakpoints == InitialBreakpoints(initialPercent) && watcher.sender == sender
    ensures watcher.currentIndex == 0 && watcher.subscribed && watcher.Emitted() == []
  {
    var filteredBreakpoints := AtLeast(BASE_BREAKPOINTS, initialPercent);
    watcher := new ScrollWatcher(filteredBreakpoints, sender);
  }
}
