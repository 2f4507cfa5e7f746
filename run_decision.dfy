/**
 * The render-or-skip decision of `run_once` (src/inkycal/main.py) and its
 * update of the persisted `State` record (src/inkycal/state.py).
 */
module RunDecision {
  import opened Wrappers
  import opened EventModel
  import opened SleepSchedule

  // ------------------------------------------------------------ run_once

  /** The persisted `State` record as a value. */
  datatype StateRecord = StateRecord(lastHash: string, lastRenderedIso: string, lastSleepBannerDate: string)

  /** The `sleep` section of the configuration. */
  datatype SleepConfig = SleepConfig(enabled: bool, start: string, end: string)

  /**
   * The clock reading of one run: the aware instant, its wall-clock minute
   * of the day and its `%Y-%m-%d` date in the configured zone.
   */
  datatype Clock = Clock(now: DateTime, minuteOfDay: int, today: string)

  /** How a run of `run_once` ends. */
  datatype RunOutcome =
    | BadSleepTime                         // `_parse_hhmm` raised: the run aborts
    | SleepSkip                            // asleep, banner already shown today
    | NoChangeSkip                         // nothing would look different
    | Rendered(showBanner: bool, applyBanner: bool, signature: string)
    | Failed                               // the Google fetch, the render or the display raised

  const HourSeconds := 3600

  /** `in_sleep`, or `None` when a sleep bound does not parse. */
  function InSleep(config: SleepConfig, clock: Clock): Option<bool> {
    match (ParseHHMM(config.start), ParseHHMM(config.end))
    case (Ok(start), Ok(end)) => Some(config.enabled && InSleepWindow(clock.minuteOfDay, start, end))
    case _ => None
  }

  /**
   * The decision of `run_once`. `signature` is what `_events_signature`
   * gives for the freshly fetched and processed events, as a function of
   * the banner flag, the only input to it that this decision computes.
   */
  function Decide(state: StateRecord, config: SleepConfig, clock: Clock, force: bool, deepClean: bool,
                  signature: bool -> string, parseIso: IsoParser): RunOutcome
  {
    match InSleep(config, clock)
    case None => BadSleepTime
    case Some(inSleep) =>
      var applyBanner := config.enabled && inSleep && state.lastSleepBannerDate != clock.today;
      if inSleep && !applyBanner && !force && !deepClean then SleepSkip
      else
        var showBanner := inSleep && config.enabled;
        var sig := signature(showBanner);
        var hourly := ShouldForceHourlyRefresh(state.lastRenderedIso, clock.now, HourSeconds, parseIso);
        if !force && !deepClean && !applyBanner && !hourly && sig == state.lastHash then NoChangeSkip
        else Rendered(showBanner, applyBanner, sig)
  }

  /**
   * How the run ends once the calls outside this model are accounted for:
   * `fetched` says the Google fetch (when it is made) returned, `drawn` that
   * `render_daily_schedule` and `show_on_inky` returned. Neither is caught
   * by `run_once`, so a raise ends the run before the state is written; the
   * iCloud fetch is caught and only drops events, which `signature` covers.
   */
  function Run(state: StateRecord, config: SleepConfig, clock: Clock, force: bool, deepClean: bool,
               signature: bool -> string, parseIso: IsoParser, fetched: bool, drawn: bool): RunOutcome
  {
    var decision := Decide(state, config, clock, force, deepClean, signature, parseIso);
    if decision.BadSleepTime? || decision.SleepSkip? then decision
    else if !fetched || (decision.Rendered? && !drawn) then Failed
    else decision
  }

  /** The state `run_once` leaves behind: only a completed render writes it. */
  function NextState(state: StateRecord, outcome: RunOutcome, clock: Clock,
                     formatIso: DateTime -> string): StateRecord
  {
    match outcome
    case Rendered(_, applyBanner, sig) =>
      StateRecord(sig, formatIso(clock.now),
                  if applyBanner then clock.today else state.lastSleepBannerDate)
    case _ => state
  }

  class State {
    var lastHash: string
    var lastRenderedIso: string
    var lastSleepBannerDate: string

    function Snapshot(): StateRecord
      reads this
    {
      StateRecord(lastHash, lastRenderedIso, lastSleepBannerDate)
    }

    /** A missing state file loads as all-empty fields. */
    constructor ()
      ensures Snapshot() == StateRecord("", "", "")
    {
      lastHash := "";
      lastRenderedIso := "";
      lastSleepBannerDate := "";
    }

    /**
     * `run_once` as far as the display and the state are concerned: decide,
     * then record a render that completed.
     */
    method RunOnce(config: SleepConfig, clock: Clock, force: bool, deepClean: bool,
                   signature: bool -> string, parseIso: IsoParser, formatIso: DateTime -> string,
                   fetched: bool, drawn: bool)
      returns (outcome: RunOutcome)
      modifies this
      ensures outcome == Run(old(Snapshot()), config, clock, force, deepClean, signature, parseIso, fetched, drawn)
      ensures Snapshot() == NextState(old(Snapshot()), outcome, clock, formatIso)
    {
      outcome := Poll(config, clock, force, deepClean, signature, parseIso);
      if outcome.NoChangeSkip? || outcome.Rendered? {
        if !fetched || (outcome.Rendered? && !drawn) {
          return Failed;
        }
      }
      if outcome.Rendered? {
        Commit(outcome.signature, formatIso(clock.now), outcome.applyBanner, clock.today);
      }
    }

    /** The checks of `run_once` up to the point where it draws or returns early. */
    method Poll(config: SleepConfig, clock: Clock, force: bool, deepClean: bool,
                signature: bool -> string, parseIso: IsoParser)
      returns (outcome: RunOutcome)
      ensures outcome == Decide(Snapshot(), config, clock, force, deepClean, signature, parseIso)
    {
      var start := ParseHHMM(config.start);
      var end := ParseHHMM(config.end);
      if start.Err? || end.Err? {
        return BadSleepTime;
      }
      var inSleep := config.enabled && InSleepWindow(clock.minuteOfDay, start.value, end.value);
      var applyBanner := false;
      if config.enabled && inSleep {
        if lastSleepBannerDate != clock.today {
          applyBanner := true;
        }
      }
      if inSleep && !applyBanner && !force && !deepClean {
        return SleepSkip;
      }
      var showBanner := inSleep && config.enabled;
      var sig := signature(showBanner);
      var hourly := ShouldForceHourlyRefresh(lastRenderedIso, clock.now, HourSeconds, parseIso);
      if !force && !deepClean && !applyBanner && !hourly && sig == lastHash {
        return NoChangeSkip;
      }
      return Rendered(showBanner, applyBanner, sig);
    }

    /** The state update after a render. */
    method Commit(sig: string, renderedIso: string, applyBanner: bool, today: string)
      modifies this
      ensures lastHash == sig && lastRenderedIso == renderedIso
      ensures lastSleepBannerDate == if applyBanner then today else old(lastSleepBannerDate)
    {
      lastHash := sig;
      lastRenderedIso := renderedIso;
      if applyBanner {
        lastSleepBannerDate := today;
      }
    }
  }

  // ------------------------------------------------------------ properties of the decision

  /**
   * A run stops before fetching exactly when the sleep bounds parse, the
   * clock is inside an enabled sleep window, the banner was already shown
   * today, and neither `force` nor `deep_clean` is set.
   */
  lemma SleepSkipExactly(state: StateRecord, config: SleepConfig, clock: Clock, force: bool, deepClean: bool,
                         signature: bool -> string, parseIso: IsoParser)
    ensures Decide(state, config, clock, force, deepClean, signature, parseIso) == SleepSkip <==>
      && InSleep(config, clock) == Some(true)
      && state.lastSleepBannerDate == clock.today
      && !force && !deepClean
    ensures !config.enabled ==> Decide(state, config, clock, force, deepClean, signature, parseIso) != SleepSkip
  {
  }

  /**
   * Past the sleep check, the display is redrawn exactly when one of
   * `force`, `deep_clean`, a banner not yet shown today, the hourly floor, or
   * a changed signature holds.
   */
  lemma RenderExactly(state: StateRecord, config: SleepConfig, clock: Clock, force: bool, deepClean: bool,
                      signature: bool -> string, parseIso: IsoParser)
    requires InSleep(config, clock).Some?
    requires Decide(state, config, clock, force, deepClean, signature, parseIso) != SleepSkip
    ensures var inSleep := InSleep(config, clock).value;
      var applyBanner := config.enabled && inSleep && state.lastSleepBannerDate != clock.today;
      var sig := signature(inSleep);
      var hourly := ShouldForceHourlyRefresh(state.lastRenderedIso, clock.now, HourSeconds, parseIso);
      && (Decide(state, config, clock, force, deepClean, signature, parseIso).Rendered? <==>
            force || deepClean || applyBanner || hourly || sig != state.lastHash)
      && (Decide(state, config, clock, force, deepClean, signature, parseIso).Rendered? ==>
            Decide(state, config, clock, force, deepClean, signature, parseIso)
              == Rendered(inSleep, applyBanner, sig))
  {
  }

  /**
   * A render stores the signature and the render time, and moves the banner
   * date to today exactly when it newly showed the banner; a skipped or
   * aborted run writes nothing.
   */
  lemma NextStateExactly(state: StateRecord, config: SleepConfig, clock: Clock, force: bool, deepClean: bool,
                         signature: bool -> string, parseIso: IsoParser, formatIso: DateTime -> string)
    ensures var outcome := Decide(state, config, clock, force, deepClean, signature, parseIso);
      var next := NextState(state, outcome, clock, formatIso);
      && (!outcome.Rendered? ==> next == state)
      && (outcome.Rendered? ==>
            && next.lastHash == outcome.signature
            && next.lastRenderedIso == formatIso(clock.now)
            && (next.lastSleepBannerDate == clock.today <==>
                  outcome.applyBanner || state.lastSleepBannerDate == clock.today)
            && (outcome.applyBanner <==> InSleep(config, clock) == Some(true) && state.lastSleepBannerDate != clock.today))
  {
  }

  /**
   * The banner is drawn once per day: after a run that showed it, a later run
   * on the same day, still inside the window and without `force` or
   * `deep_clean`, stops before fetching.
   */
  lemma BannerOncePerDay(state: StateRecord, config: SleepConfig, clock: Clock, later: Clock,
                         signature: bool -> string, laterSignature: bool -> string,
                         parseIso: IsoParser, formatIso: DateTime -> string)
    requires Decide(state, config, clock, false, false, signature, parseIso).Rendered?
    requires Decide(state, config, clock, false, false, signature, parseIso).applyBanner
    requires later.today == clock.today && InSleep(config, later) == Some(true)
    ensures var next := NextState(state, Decide(state, config, clock, false, false, signature, parseIso), clock, formatIso);
      Decide(next, config, later, false, false, laterSignature, parseIso) == SleepSkip
  {
  }

  /**
   * Outside the sleep window, a run less than an hour after a render whose
   * time reads back correctly, with an unchanged signature and no flags,
   * does not redraw.
   */
  lemma NoRedrawWithinTheHour(state: StateRecord, config: SleepConfig, clock: Clock, later: Clock,
                              signature: bool -> string, parseIso: IsoParser, formatIso: DateTime -> string)
    requires Decide(state, config, clock, false, false, signature, parseIso).Rendered?
    requires InSleep(config, clock) == Some(false) && InSleep(config, later) == Some(false)
    requires formatIso(clock.now) != "" && parseIso(formatIso(clock.now)) == Some(Aware(clock.now.seconds))
    requires later.now.seconds - clock.now.seconds < HourSeconds
    ensures var next := NextState(state, Decide(state, config, clock, false, false, signature, parseIso), clock, formatIso);
      Decide(next, config, later, false, false, signature, parseIso) == NoChangeSkip
  {
  }

  /**
   * A run ends as decided unless a call it does not catch raises: a failed
   * Google fetch ends every run that gets past the sleep check, a failed
   * render or display ends a run that was going to redraw, and a failed run
   * writes nothing.
   */
  lemma RunExactly(state: StateRecord, config: SleepConfig, clock: Clock, force: bool, deepClean: bool,
                   signature: bool -> string, parseIso: IsoParser, formatIso: DateTime -> string,
                   fetched: bool, drawn: bool)
    ensures var decision := Decide(state, config, clock, force, deepClean, signature, parseIso);
      var outcome := Run(state, config, clock, force, deepClean, signature, parseIso, fetched, drawn);
      && (outcome == Failed <==>
            (decision.NoChangeSkip? && !fetched) || (decision.Rendered? && !(fetched && drawn)))
      && (outcome != Failed ==> outcome == decision)
      && (outcome.Rendered? <==> decision.Rendered? && fetched && drawn)
      && (!(fetched && drawn) ==> NextState(state, outcome, clock, formatIso) == state)
  {
  }

  /** Both sleep bounds must parse even when sleep is disabled, or the run aborts. */
  lemma BadSleepTimeAborts(state: StateRecord, config: SleepConfig, clock: Clock, force: bool, deepClean: bool,
                           signature: bool -> string, parseIso: IsoParser)
    ensures Decide(state, config, clock, force, deepClean, signature, parseIso) == BadSleepTime <==>
      ParseHHMM(config.start).Err? || ParseHHMM(config.end).Err?
  {
  }
}
