/** The per-connection budgets, updated in place. */
module Limiters {
  import opened Clock
  import opened FixedWindows

  const MAX_MESSAGES_PER_WINDOW: nat := 120
  const MESSAGE_RATE_WINDOW: nat := 10 * SECOND
  const MAX_OUTBOUND_FRAMES_PER_WINDOW: nat := 64
  const MAX_OUTBOUND_BYTES_PER_WINDOW: nat := 1024 * 1024
  const OUTBOUND_BUDGET_WINDOW: nat := SECOND
  const USIZE_MAX: nat := 0xFFFF_FFFF_FFFF_FFFF

  function SaturatingAdd(a: nat, b: nat): nat {
    if a + b <= USIZE_MAX then a + b else USIZE_MAX
  }

  class MessageRateLimiter {
    var windowStarted: Instant
    var messages: nat
    ghost var log: seq<Entry>
    ghost var clock: Instant

    ghost predicate Valid()
      reads this
    {
      && Tracks(Window(windowStarted, messages), log, MESSAGE_RATE_WINDOW, MAX_MESSAGES_PER_WINDOW)
      && windowStarted <= clock
    }

    constructor (now: Instant)
      ensures Valid() && log == [] && clock == now
    {
      windowStarted, messages, log, clock := now, 0, [], now;
    }

    /**
     Allow a message unless the current window is spent. The elapsed test and the
     restart of the window read the clock separately.
     */
    method Allow(checked: Instant, restarted: Instant) returns (ok: bool)
      requires Valid() && clock <= checked <= restarted
      modifies this
      ensures Valid() && clock == Stamp(old(Window(windowStarted, messages)), MESSAGE_RATE_WINDOW, checked, restarted)
      ensures ok <==> Elapsed(checked, old(windowStarted)) >= MESSAGE_RATE_WINDOW
                      || Spent(old(log), old(windowStarted)) < MAX_MESSAGES_PER_WINDOW
      ensures log == old(log) + if ok then [Entry(clock, windowStarted, 1)] else []
    {
      RollTracks(Window(windowStarted, messages), log, MESSAGE_RATE_WINDOW, MAX_MESSAGES_PER_WINDOW,
                 checked, restarted);
      clock := checked;
      if Elapsed(checked, windowStarted) >= MESSAGE_RATE_WINDOW {
        windowStarted := restarted;
        messages := 0;
        clock := restarted;
      }
      if messages >= MAX_MESSAGES_PER_WINDOW {
        return false;
      }
      ChargeTracks(Window(windowStarted, messages), log, MESSAGE_RATE_WINDOW, MAX_MESSAGES_PER_WINDOW, clock, 1);
      messages := messages + 1;
      log := log + [Entry(clock, windowStarted, 1)];
      ok := true;
    }

    /** However a sender spaces its messages, any ten seconds admit at most twice the window's allowance. */
    lemma TenSecondBound(from: Instant)
      requires Valid()
      ensures SpentBetween(log, from, from + 10 * SECOND) <= 240
    {
      OneWidthBound(log, MESSAGE_RATE_WINDOW, MAX_MESSAGES_PER_WINDOW, from);
    }
  }

  class OutboundBudget {
    var windowStarted: Instant
    var frames: nat
    var bytes: nat
    ghost var frameLog: seq<Entry>
    ghost var byteLog: seq<Entry>
    ghost var clock: Instant

    ghost predicate Valid()
      reads this
    {
      && Tracks(Window(windowStarted, frames), frameLog, OUTBOUND_BUDGET_WINDOW, MAX_OUTBOUND_FRAMES_PER_WINDOW)
      && Tracks(Window(windowStarted, bytes), byteLog, OUTBOUND_BUDGET_WINDOW, MAX_OUTBOUND_BYTES_PER_WINDOW)
      && windowStarted <= clock
    }

    constructor (now: Instant)
      ensures Valid() && frameLog == [] && byteLog == [] && clock == now
    {
      windowStarted, frames, bytes, frameLog, byteLog, clock := now, 0, 0, [], [], now;
    }

    ghost predicate Fits(size: nat)
      reads this
    {
      && Spent(frameLog, windowStarted) < MAX_OUTBOUND_FRAMES_PER_WINDOW
      && Spent(byteLog, windowStarted) + size <= MAX_OUTBOUND_BYTES_PER_WINDOW
    }

    /** Begin a new window if the current one has run its width; a new window is unspent. */
    method Restart(checked: Instant, restarted: Instant)
      requires Valid() && clock <= checked <= restarted
      modifies this
      ensures Valid() && frameLog == old(frameLog) && byteLog == old(byteLog)
      ensures clock == Stamp(old(Window(windowStarted, frames)), OUTBOUND_BUDGET_WINDOW, checked, restarted)
      ensures windowStarted <= clock < windowStarted + OUTBOUND_BUDGET_WINDOW
      ensures if Elapsed(checked, old(windowStarted)) >= OUTBOUND_BUDGET_WINDOW
              then windowStarted == restarted && frames == bytes == 0
              else windowStarted == old(windowStarted)
    {
      RollTracks(Window(windowStarted, frames), frameLog, OUTBOUND_BUDGET_WINDOW, MAX_OUTBOUND_FRAMES_PER_WINDOW,
                 checked, restarted);
      RollTracks(Window(windowStarted, bytes), byteLog, OUTBOUND_BUDGET_WINDOW, MAX_OUTBOUND_BYTES_PER_WINDOW,
                 checked, restarted);
      clock := checked;
      if Elapsed(checked, windowStarted) >= OUTBOUND_BUDGET_WINDOW {
        windowStarted := restarted;
        frames := 0;
        bytes := 0;
        clock := restarted;
      }
    }

    method Charge(size: nat)
      requires Valid() && Fits(size) && clock < windowStarted + OUTBOUND_BUDGET_WINDOW
      modifies this`frames, this`bytes, this`frameLog, this`byteLog
      ensures Valid()
      ensures frameLog == old(frameLog) + [Entry(clock, windowStarted, 1)]
      ensures byteLog == old(byteLog) + [Entry(clock, windowStarted, size)]
    {
      hide WindowLog;
      ChargeTracks(Window(windowStarted, frames), frameLog, OUTBOUND_BUDGET_WINDOW, MAX_OUTBOUND_FRAMES_PER_WINDOW,
                   clock, 1);
      ChargeTracks(Window(windowStarted, bytes), byteLog, OUTBOUND_BUDGET_WINDOW, MAX_OUTBOUND_BYTES_PER_WINDOW,
                   clock, size);
      frames := frames + 1;
      bytes := bytes + size;
      frameLog := frameLog + [Entry(clock, windowStarted, 1)];
      byteLog := byteLog + [Entry(clock, windowStarted, size)];
    }

    /** Allow a frame exactly when both the frame count and the byte total still have room in the window. */
    method Allow(size: nat, checked: Instant, restarted: Instant) returns (ok: bool)
      requires Valid() && clock <= checked <= restarted && size <= USIZE_MAX
      modifies this
      ensures Valid() && clock == Stamp(old(Window(windowStarted, frames)), OUTBOUND_BUDGET_WINDOW, checked, restarted)
      ensures ok <==> if Elapsed(checked, old(windowStarted)) >= OUTBOUND_BUDGET_WINDOW
                      then size <= MAX_OUTBOUND_BYTES_PER_WINDOW else old(Fits(size))
      ensures frameLog == old(frameLog) + if ok then [Entry(clock, windowStarted, 1)] else []
      ensures byteLog == old(byteLog) + if ok then [Entry(clock, windowStarted, size)] else []
    {
      hide WindowLog;
      Restart(checked, restarted);
      NeverOverspent(Window(windowStarted, bytes), byteLog, OUTBOUND_BUDGET_WINDOW, MAX_OUTBOUND_BYTES_PER_WINDOW);
      if size > MAX_OUTBOUND_BYTES_PER_WINDOW || frames >= MAX_OUTBOUND_FRAMES_PER_WINDOW
         || SaturatingAdd(bytes, size) > MAX_OUTBOUND_BYTES_PER_WINDOW
      {
        return false;
      }
      Charge(size);
      ok := true;
    }

    /** Over `n` seconds, starting anywhere, at most n + 1 windows' worth of frames and of bytes leave. */
    lemma SecondsBound(from: Instant, n: nat)
      requires Valid()
      ensures SpentBetween(frameLog, from, from + n * SECOND) <= (n + 1) * 64
      ensures SpentBetween(byteLog, from, from + n * SECOND) <= (n + 1) * 1_048_576
    {
      IntervalBound(frameLog, OUTBOUND_BUDGET_WINDOW, MAX_OUTBOUND_FRAMES_PER_WINDOW, from, n * SECOND);
      IntervalBound(byteLog, OUTBOUND_BUDGET_WINDOW, MAX_OUTBOUND_BYTES_PER_WINDOW, from, n * SECOND);
      DivUnique(n * SECOND + SECOND - 1, SECOND, n);
    }
  }
}
