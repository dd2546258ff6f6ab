/** The launch-count / show-once state machine of a rating prompt.

    A prompt instance keeps two mutable fields in memory (`numOpens`,
    `active`) next to its immutable configuration; a preference file named
    "RatingDialog" persists three keys across launches: `show`, `num_opens`
    and `num_opens_thres`. Each launch calls `OnOpen` (a read-modify-write
    of the file); the host application may then call `Show`, which fires the
    dialog at most when the count has reached the threshold and the prompt
    is still active. The dialogs themselves are abstracted to the boolean
    `fired` of `Show`. */
module RatingPrompt {
  import opened Options
  import opened JavaInt

  /** The default `getInt` falls back to, and the marker of a first run. */
  const UNSET: Int32 := -1

  /** The preference file: each of the three keys may be absent. */
  datatype Store = Store(show: Option<bool>, numOpens: Option<Int32>, threshold: Option<Int32>)

  /** The file as it is before the prompt ever wrote to it. */
  const EmptyStore: Store := Store(None, None, None)

  /** The settings a prompt is built with. The strings are Java references
      and may be null; the threshold is the launch count at which the
      prompt becomes eligible. */
  datatype Config = Config(
    packageName: Option<string>,
    questionTitle: Option<string>,
    questionMessage: Option<string>,
    ratingTitle: Option<string>,
    ratingMessage: Option<string>,
    threshold: Int32)

  /** A prompt instance: its configuration and its two in-memory fields. */
  datatype Prompt = Prompt(config: Config, numOpens: Int32, active: bool)

  /** The instance a constructor returns: Java's field defaults apply to the
      two fields the constructor does not assign. Such an instance cannot
      show anything before its first `OnOpen`, and over a file that never saw
      the prompt that first launch counts 1. */
  function Fresh(c: Config): (p: Prompt)
    ensures p.config == c
    ensures p.numOpens == 0 && !p.active
    ensures forall s: Store :: !Show(World(p, s)).fired
    ensures OnOpen(World(p, EmptyStore)).prompt.numOpens == 1
  {
    Prompt(c, 0, false)
  }

  /** Everything the state machine acts on: the instance and the file. */
  datatype World = World(prompt: Prompt, store: Store)

  /** A run counts as first when no threshold was ever stored, or when the
      stored one equals the `getInt` default. */
  function IsFirstRun(s: Store): (r: bool)
    ensures r <==> s.threshold.None? || s.threshold.value == -1
  {
    s.threshold.GetOr(UNSET) == UNSET
  }

  /** Loads `active` and `numOpens` from the file, defaulting to `true` and
      to -1 for keys that are absent. */
  function ReadStore(p: Prompt, s: Store): (q: Prompt)
    ensures q.config == p.config
    ensures q.active <==> s.show != Some(false)
    ensures s.numOpens.Some? ==> q.numOpens == s.numOpens.value
    ensures s.numOpens.None? ==> q.numOpens == -1
  {
    p.(active := s.show.GetOr(true), numOpens := s.numOpens.GetOr(UNSET))
  }

  /** Saves all three keys. The result does not depend on the old file. */
  function WriteStore(p: Prompt): (t: Store)
    ensures ReadStore(p, t) == p
    ensures t.show.Some? && t.numOpens.Some? && t.threshold.Some?
    ensures !IsFirstRun(t) <==> p.config.threshold != -1
    ensures t.threshold.value == p.config.threshold
  {
    Store(Some(p.active), Some(p.numOpens), Some(p.config.threshold))
  }

  /** Writes the `show` key only. */
  function SetActive(s: Store, active: bool): (t: Store)
    ensures t.show == Some(active)
    ensures t.numOpens == s.numOpens && t.threshold == s.threshold
    ensures IsFirstRun(t) == IsFirstRun(s)
  {
    s.(show := Some(active))
  }

  /** The count gate of `Show`: the launch count has reached the threshold. */
  function DoShowDialog(p: Prompt): (r: bool)
    ensures r <==> p.config.threshold <= p.numOpens
  {
    p.numOpens >= p.config.threshold
  }

  /** Counting one more launch (`numOpens++`, which wraps) keeps an open
      gate open below `Integer.MAX_VALUE`. At `Integer.MAX_VALUE` the count
      wraps to `Integer.MIN_VALUE`, which closes the gate unless the
      threshold is `Integer.MIN_VALUE` itself. */
  lemma GateAfterIncrement(p: Prompt)
    requires DoShowDialog(p)
    ensures p.numOpens < MAX ==> DoShowDialog(p.(numOpens := Inc(p.numOpens)))
    ensures p.numOpens == MAX ==>
              (DoShowDialog(p.(numOpens := Inc(p.numOpens))) <==> p.config.threshold == MIN)
  {
  }

  /** One application launch: read the file unless this is a first run (a
      first run instead activates the prompt and keeps the in-memory count),
      count the launch, and write all three keys back. */
  function OnOpen(w: World): (r: World)
    ensures r.prompt.config == w.prompt.config
    // the starting value of the count, and the resulting `active`
    ensures IsFirstRun(w.store) ==>
              r.prompt.active && r.prompt.numOpens == Inc(w.prompt.numOpens)
    ensures !IsFirstRun(w.store) ==>
              && (r.prompt.active <==> w.store.show != Some(false))
              && (w.store.numOpens.Some? ==> r.prompt.numOpens == Inc(w.store.numOpens.value))
              && (w.store.numOpens.None? ==> r.prompt.numOpens == 0)
    // the file mirrors memory afterwards
    ensures r.store.show == Some(r.prompt.active)
    ensures r.store.numOpens == Some(r.prompt.numOpens)
    ensures r.store.threshold == Some(w.prompt.config.threshold)
    // a later launch is a first run exactly when the threshold is the sentinel
    ensures IsFirstRun(r.store) <==> w.prompt.config.threshold == -1
  {
    var loaded := if !IsFirstRun(w.store) then ReadStore(w.prompt, w.store)
                  else w.prompt.(active := true);
    var counted := loaded.(numOpens := Inc(loaded.numOpens));
    World(counted, WriteStore(counted))
  }

  /** What `Show` did: whether the dialog was shown, and the state after. */
  datatype Shown = Shown(fired: bool, world: World)

  /** Shows the dialog when the count has reached the threshold and the
      prompt is active, and then deactivates the prompt in memory and in
      the file; otherwise does nothing. */
  function Show(w: World): (r: Shown)
    ensures r.fired <==> w.prompt.numOpens >= w.prompt.config.threshold && w.prompt.active
    ensures r.fired ==> !r.world.prompt.active && r.world.store.show == Some(false)
    ensures !r.fired ==> r.world == w
    // nothing but `active` and the `show` key ever changes
    ensures r.world.prompt.config == w.prompt.config
    ensures r.world.prompt.numOpens == w.prompt.numOpens
    ensures r.world.store.numOpens == w.store.numOpens
    ensures r.world.store.threshold == w.store.threshold
  {
    if DoShowDialog(w.prompt) && w.prompt.active then
      Shown(true, World(w.prompt.(active := false), SetActive(w.store, false)))
    else
      Shown(false, w)
  }
}
