/**
 * The OAuth redirect target (src/components/CallbackPage.tsx). Only the
 * truthiness of the `code` query parameter matters: with one, the page shows
 * a progress view and schedules a navigation to `/stats` after 2000 ms;
 * without one (absent or empty), it shows a failure caption and navigates to
 * `/login` at once. No code exchange takes place.
 */
module Callback {
  import opened Types

  const StatsPath: string := "/stats"
  const LoginPath: string := "/login"
  const DelayMs: nat := 2000

  /** JavaScript truthiness of `searchParams.get('code')`: present and non-empty. */
  predicate IsTruthy(code: Option<string>)
  {
    code.Some? && code.value != ""
  }

  /** The navigation one run of the effect issues. */
  datatype Nav =
    | NavigateNow(to: string)
    | NavigateAfter(delayMs: nat, to: string)   // a `setTimeout` that navigates

  /** The decision of the effect. */
  function Decide(code: Option<string>): (n: Nav)
    ensures IsTruthy(code) <==> n == NavigateAfter(DelayMs, StatsPath)
    ensures !IsTruthy(code) <==> n == NavigateNow(LoginPath)
  {
    if IsTruthy(code) then NavigateAfter(DelayMs, StatsPath) else NavigateNow(LoginPath)
  }

  /** What the page shows. */
  datatype Message = Authenticating | AuthenticationFailed

  /** The render branch on `code`. */
  function Shown(code: Option<string>): (m: Message)
    ensures m == Authenticating <==> IsTruthy(code)
  {
    if IsTruthy(code) then Authenticating else AuthenticationFailed
  }

  /**
   * The view and the navigation agree: the progress view goes with the delayed
   * navigation to `/stats`, the failure caption with the immediate one to `/login`.
   */
  lemma ShownMatchesDecision(code: Option<string>)
    ensures Shown(code) == Authenticating <==> Decide(code).NavigateAfter?
    ensures Shown(code) == AuthenticationFailed <==> Decide(code) == NavigateNow(LoginPath)
  {
  }

  /** Only whether a code is there matters, never which code it is. */
  lemma CodeValueIrrelevant(a: string, b: string)
    requires a != "" && b != ""
    ensures Decide(Some(a)) == Decide(Some(b)) && Shown(Some(a)) == Shown(Some(b))
  {
  }

  /** A navigation scheduled by `setTimeout` and not yet run. */
  datatype Timer = Timer(delayMs: nat, to: string)

  /** The page's router location and its pending timers. */
  class CallbackPage {
    var pathname: string
    var timers: seq<Timer>

    constructor (pathname: string)
      ensures this.pathname == pathname && timers == []
    {
      this.pathname := pathname;
      timers := [];
    }

    /**
     * One run of the effect: exactly one navigation, either scheduled or
     * immediate, as `Decide` says.
     */
    method Effect(code: Option<string>)
      modifies this
      ensures match Decide(code)
        case NavigateAfter(d, to) => timers == old(timers) + [Timer(d, to)] && pathname == old(pathname)
        case NavigateNow(to) => timers == old(timers) && pathname == to
    {
      if IsTruthy(code) {
        timers := timers + [Timer(DelayMs, StatsPath)];
      } else {
        pathname := LoginPath;
      }
    }

    /** The oldest pending timer runs its navigation; with none pending nothing happens. */
    method FireTimer()
      modifies this
      ensures old(timers) == [] ==> timers == [] && pathname == old(pathname)
      ensures old(timers) != [] ==> pathname == old(timers)[0].to && timers == old(timers)[1..]
    {
      if timers != [] {
        pathname := timers[0].to;
        timers := timers[1..];
      }
    }
  }

  /** A client: a callback with a code reaches `/stats` only once the timer runs. */
  method CallbackWithCode()
  {
    var page := new CallbackPage("/callback");
    page.Effect(Some("abc"));
    assert page.pathname == "/callback" && page.timers == [Timer(DelayMs, StatsPath)];
    page.FireTimer();
    assert page.pathname == StatsPath && page.timers == [];
  }
}
