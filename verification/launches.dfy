/** Sequences of launches. A `Launch` starts a new process: the application
    builds a fresh instance from the same settings while the preference file
    survives. `Open` is `onOpen` on the current instance and `ShowPrompt` is
    `show`. The theorems here are the promise behind the `show` key: the
    prompt fires at most once on a device, and fires at the launch whose
    count first reaches the threshold. */
module Launches {
  import opened Options
  import opened JavaInt
  import opened RatingPrompt

  datatype Event = Launch | Open | ShowPrompt

  /** One event, and whether it showed the dialog. A launch is a new process
      built from the same settings: its instance is fresh, the file survives
      unchanged, and nothing is shown. */
  function Step(w: World, e: Event): (r: Shown)
    ensures e == Launch ==>
              && !r.fired
              && r.world.prompt == Fresh(w.prompt.config)
              && r.world.store == w.store
    ensures e == Open ==> !r.fired && r.world == OnOpen(w)
    ensures e == ShowPrompt ==> r == Show(w)
  {
    match e
    case Launch => Shown(false, World(Fresh(w.prompt.config), w.store))
    case Open => Shown(false, OnOpen(w))
    case ShowPrompt => Show(w)
  }

  /** The state after a run of events, and how many times the dialog fired. */
  datatype Trace = Trace(world: World, fires: nat)

  /** Runs `evs` in order from `w`. The settings never change, and a run
      fires at most once per event. */
  function Run(w: World, evs: seq<Event>): (t: Trace)
    ensures t.world.prompt.config == w.prompt.config
    ensures t.fires <= |evs|
    decreases |evs|
  {
    if |evs| == 0 then Trace(w, 0)
    else
      var s := Step(w, evs[0]);
      var rest := Run(s.world, evs[1..]);
      Trace(rest.world, (if s.fired then 1 else 0) + rest.fires)
  }

  /** Running `a ++ b` is running `a`, then `b` from where `a` stopped. */
  lemma {:induction false} RunAppend(w: World, a: seq<Event>, b: seq<Event>)
    ensures Run(w, a + b).world == Run(Run(w, a).world, b).world
    ensures Run(w, a + b).fires == Run(w, a).fires + Run(Run(w, a).world, b).fires
    decreases |a|
  {
    if |a| == 0 {
      assert a + b == b;
    } else {
      assert (a + b)[0] == a[0];
      assert (a + b)[1..] == a[1..] + b;
      RunAppend(Step(w, a[0]).world, a[1..], b);
    }
  }

  /** An active prompt implies that the file already holds this prompt's
      threshold: activation only ever happens inside `OnOpen`, which writes it. */
  ghost predicate Consistent(w: World) {
    w.prompt.active ==> w.store.threshold == Some(w.prompt.config.threshold)
  }

  /** The state after the dialog fired: inactive in memory and in the file,
      and the file is past its first run. */
  ghost predicate Silenced(w: World) {
    && !w.prompt.active
    && w.store.show == Some(false)
    && w.store.threshold == Some(w.prompt.config.threshold)
    && w.prompt.config.threshold != -1
  }

  /** Every event keeps `Consistent`; a firing `ShowPrompt` silences. */
  lemma StepConsistent(w: World, e: Event)
    requires Consistent(w)
    ensures Consistent(Step(w, e).world)
    ensures Step(w, e).fired ==> e == ShowPrompt && w.prompt.active
    ensures Step(w, e).fired && w.prompt.config.threshold != -1 ==> Silenced(Step(w, e).world)
  {
  }

  /** Every run keeps `Consistent`; with `Fresh` inactive, this makes every
      state reachable from a freshly built instance consistent. */
  lemma {:induction false} RunConsistent(w: World, evs: seq<Event>)
    requires Consistent(w)
    ensures Consistent(Run(w, evs).world)
    decreases |evs|
  {
    if |evs| > 0 {
      StepConsistent(w, evs[0]);
      RunConsistent(Step(w, evs[0]).world, evs[1..]);
    }
  }

  /** A silenced prompt stays silenced under every event and never fires:
      a later launch reads `show == false` because the file is no longer a
      first run. */
  lemma StepSilenced(w: World, e: Event)
    requires Silenced(w)
    ensures !Step(w, e).fired
    ensures Silenced(Step(w, e).world)
  {
  }

  /** No run from a silenced state fires. */
  lemma {:induction false} SilencedRun(w: World, evs: seq<Event>)
    requires Silenced(w)
    ensures Run(w, evs).fires == 0
    ensures Silenced(Run(w, evs).world)
    decreases |evs|
  {
    if |evs| > 0 {
      StepSilenced(w, evs[0]);
      SilencedRun(Step(w, evs[0]).world, evs[1..]);
    }
  }

  /** The prompt fires at most once, whatever the events, provided the
      threshold is not the first-run sentinel -1. */
  lemma {:induction false} AtMostOnce(w: World, evs: seq<Event>)
    requires w.prompt.config.threshold != -1
    requires Consistent(w)
    ensures Run(w, evs).fires <= 1
    decreases |evs|
  {
    if |evs| > 0 {
      var s := Step(w, evs[0]);
      StepConsistent(w, evs[0]);
      if s.fired {
        SilencedRun(s.world, evs[1..]);
      } else {
        AtMostOnce(s.world, evs[1..]);
      }
    }
  }

  /** The same for any device: starting from a freshly built instance over
      whatever the file holds, the dialog fires at most once. */
  lemma AtMostOnceFromLaunch(c: Config, s: Store, evs: seq<Event>)
    requires c.threshold != -1
    ensures Run(World(Fresh(c), s), evs).fires <= 1
  {
    AtMostOnce(World(Fresh(c), s), evs);
  }

  /** With a threshold other than -1, a file that is past its first run stays
      so whatever events follow: every `OnOpen` writes that threshold back,
      and `Show` writes only the `show` key. */
  lemma {:induction false} StaysPastFirstRun(w: World, evs: seq<Event>)
    requires w.prompt.config.threshold != -1
    requires !IsFirstRun(w.store)
    ensures !IsFirstRun(Run(w, evs).world.store)
    decreases |evs|
  {
    if |evs| > 0 {
      StaysPastFirstRun(Step(w, evs[0]).world, evs[1..]);
    }
  }

  /** `k` sessions of the usual application: start, count the launch, offer
      the prompt. */
  function Sessions(k: nat): (evs: seq<Event>)
    ensures |evs| == 3 * k
  {
    if k == 0 then [] else [Launch, Open, ShowPrompt] + Sessions(k - 1)
  }

  /** One session, spelled out as three steps. */
  lemma {:induction false} OneSession(w: World, k: nat)
    requires k >= 1
    ensures Run(w, Sessions(k)).world
            == Run(Run(w, [Launch, Open, ShowPrompt]).world, Sessions(k - 1)).world
    ensures Run(w, Sessions(k)).fires
            == Run(w, [Launch, Open, ShowPrompt]).fires
               + Run(Run(w, [Launch, Open, ShowPrompt]).world, Sessions(k - 1)).fires
  {
    RunAppend(w, [Launch, Open, ShowPrompt], Sessions(k - 1));
  }

  /** Before the threshold is reached, a file past its first run holds
      `show == true` and the count `j` (which may be 0 or below when
      `num_opens` went missing); the remaining `k` sessions then fire once
      exactly when the count reaches the threshold within them. */
  lemma {:induction false} CountingSessions(w: World, j: Int32, k: nat)
    requires w.prompt.config.threshold != -1
    requires j < w.prompt.config.threshold
    requires w.store == Store(Some(true), Some(j), Some(w.prompt.config.threshold))
    ensures Run(w, Sessions(k)).fires == if j + k >= w.prompt.config.threshold then 1 else 0
    ensures j + k < w.prompt.config.threshold ==>
              Run(w, Sessions(k)).world.store
              == Store(Some(true), Some(j + k), Some(w.prompt.config.threshold))
    decreases k
  {
    if k > 0 {
      var c := w.prompt.config;
      OneSession(w, k);
      var launched := World(Fresh(c), w.store);
      var counted := OnOpen(launched);
      assert counted.prompt == Prompt(c, j + 1, true);
      var shown := Show(counted);
      assert Run(w, [Launch, Open, ShowPrompt]).world == shown.world;
      if j + 1 >= c.threshold {
        assert Silenced(shown.world);
        SilencedRun(shown.world, Sessions(k - 1));
      } else {
        CountingSessions(shown.world, j + 1, k - 1);
      }
    }
  }

  /** On a device that never saw the prompt, `k` sessions fire the dialog
      once if `k` reaches both 1 and the threshold, and never otherwise. */
  lemma {:induction false} FiresAtThreshold(c: Config, k: nat)
    requires c.threshold != -1
    ensures Run(World(Fresh(c), EmptyStore), Sessions(k)).fires
            == if k >= 1 && k >= c.threshold then 1 else 0
  {
    if k > 0 {
      var w := World(Fresh(c), EmptyStore);
      OneSession(w, k);
      var counted := OnOpen(World(Fresh(c), EmptyStore));
      assert counted.prompt == Prompt(c, 1, true);
      var shown := Show(counted);
      assert Run(w, [Launch, Open, ShowPrompt]).world == shown.world;
      if 1 >= c.threshold {
        assert Silenced(shown.world);
        SilencedRun(shown.world, Sessions(k - 1));
      } else {
        CountingSessions(shown.world, 1, k - 1);
      }
    }
  }

  /** With the threshold set to the sentinel -1, every launch looks like a
      first run: the count restarts from the fresh instance's 0, the prompt
      is re-activated, and so every session fires the dialog again. */
  lemma {:induction false} SentinelFiresEverySession(c: Config, s: Store, k: nat)
    requires c.threshold == -1
    requires IsFirstRun(s)
    ensures Run(World(Fresh(c), s), Sessions(k)).fires == k
    decreases k
  {
    if k > 0 {
      var w := World(Fresh(c), s);
      OneSession(w, k);
      var counted := OnOpen(w);
      assert counted.prompt == Prompt(c, 1, true);
      var shown := Show(counted);
      assert shown.fired;
      assert Run(w, [Launch, Open, ShowPrompt]).world == shown.world;
      assert Run(w, [Launch, Open, ShowPrompt]).fires == 1;
      SentinelFiresEverySession(c, shown.world.store, k - 1);
    }
  }
}
