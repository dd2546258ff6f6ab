/** The start-up wiring of an application: configure a builder, hand it to
    the singleton, get the instance, then run sessions on a new device.
    The demo application's own start-up only counts the launch; the
    `ShowPrompt` of each session stands for a host screen of the application
    that calls `show`, which is not part of this model. */
module Demo {
  import opened Options
  import opened RatingPrompt
  import opened Singleton
  import opened Launches

  /** The instance the application obtains from `b` on a freshly loaded class. */
  function StartUp(b: Builder): (p: Prompt)
    ensures p == Build(b)
  {
    GetInstance(SetBuilder(Unloaded, Some(b))).value.instance
  }

  /** The demo application's settings: every string set, threshold 3. */
  function DemoBuilder(pkg: string, appName: string): (b: Builder)
    ensures b.packageName == Some(pkg)
    ensures b.questionTitle.Some? && b.ratingTitle.Some? && b.ratingMessage.Some?
    ensures b.questionMessage == Some("Are you enjoying " + appName + "?")
    ensures b.numOpensThreshold == 3
  {
    NewBuilder.(
      packageName := Some(pkg),
      questionTitle := Some("How's it going?"),
      questionMessage := Some("Are you enjoying " + appName + "?"),
      ratingTitle := Some("Rate us!"),
      ratingMessage := Some("Since you're enjoying the app, why not rate us? It only takes"
                            + " a second & helps way more than you'd think!"),
      numOpensThreshold := 3)
  }

  /** With threshold 3 the first two sessions show nothing and the third shows
      the dialog; no number of further sessions shows it again. */
  lemma DemoFiresOnThirdSession(pkg: string, appName: string, k: nat)
    ensures Run(World(StartUp(DemoBuilder(pkg, appName)), EmptyStore), Sessions(2)).fires == 0
    ensures k >= 3 ==>
              Run(World(StartUp(DemoBuilder(pkg, appName)), EmptyStore), Sessions(k)).fires == 1
  {
    var c := StartUp(DemoBuilder(pkg, appName)).config;
    FiresAtThreshold(c, 2);
    FiresAtThreshold(c, k);
  }

  /** A builder whose threshold was never set gets 0, so the dialog shows in
      the very first session, and only then. */
  lemma UnsetThresholdFiresFirstSession(b: Builder, k: nat)
    requires b.numOpensThreshold == NewBuilder.numOpensThreshold
    ensures Build(b).config.threshold == 0
    ensures Run(World(StartUp(b), EmptyStore), Sessions(k)).fires == if k >= 1 then 1 else 0
  {
    FiresAtThreshold(Build(b).config, k);
  }
}
