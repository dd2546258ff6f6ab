/** The builder and the process-wide singleton through which an application
    obtains its prompt. The registry holds the two static fields: the last
    builder handed over, and the instance once it has been built. */
module Singleton {
  import opened Options
  import opened JavaInt
  import opened RatingPrompt

  /** The builder's fields. Strings never set stay null; an unset threshold
      is Java's `int` default, 0. */
  datatype Builder = Builder(
    packageName: Option<string>,
    questionTitle: Option<string>,
    questionMessage: Option<string>,
    ratingTitle: Option<string>,
    ratingMessage: Option<string>,
    numOpensThreshold: Int32)

  /** A builder on which no setter has been called. */
  const NewBuilder: Builder := Builder(None, None, None, None, None, 0)

  /** Builds a prompt whose configuration is the builder's fields, unchanged,
      and whose in-memory state is the constructor's. */
  function Build(b: Builder): (p: Prompt)
    ensures p.config.packageName == b.packageName
    ensures p.config.questionTitle == b.questionTitle
    ensures p.config.questionMessage == b.questionMessage
    ensures p.config.ratingTitle == b.ratingTitle
    ensures p.config.ratingMessage == b.ratingMessage
    ensures p.config.threshold == b.numOpensThreshold
    ensures p.numOpens == 0 && !p.active
  {
    Fresh(Config(b.packageName, b.questionTitle, b.questionMessage,
                 b.ratingTitle, b.ratingMessage, b.numOpensThreshold))
  }

  /** The two static fields. */
  datatype Registry = Registry(builder: Option<Builder>, instance: Option<Prompt>)

  /** Both fields are null when the class is loaded. */
  const Unloaded: Registry := Registry(None, None)

  /** Replaces the stored builder, which may be null (`None`); an instance
      already built is kept. */
  function SetBuilder(r: Registry, b: Option<Builder>): (r': Registry)
    ensures r'.builder == b
    ensures r'.instance == r.instance
  {
    r.(builder := b)
  }

  /** `getInstance` dereferences a null builder when none was set. */
  datatype Error = NullBuilder

  /** A successful `getInstance`: the registry after it and the instance. */
  datatype Got = Got(registry: Registry, instance: Prompt)

  /** Returns the existing instance, or builds one from the stored builder
      and keeps it; fails when there is neither. */
  function GetInstance(r: Registry): (res: Result<Got, Error>)
    ensures r.instance.Some? ==> res == Success(Got(r, r.instance.value))
    ensures r.instance.None? && r.builder.None? ==> res == Failure(NullBuilder)
    ensures r.instance.None? && r.builder.Some? ==>
              && res.Success?
              && res.value.instance == Build(r.builder.value)
              && res.value.registry.instance == Some(res.value.instance)
              && res.value.registry.builder == r.builder
  {
    match r.instance
    case Some(p) => Success(Got(r, p))
    case None =>
      match r.builder
      case None => Failure(NullBuilder)
      case Some(b) =>
        var p := Build(b);
        Success(Got(r.(instance := Some(p)), p))
  }

  /** Once `getInstance` has succeeded, calling it again builds nothing and
      returns the same instance. */
  lemma GetInstanceIsStable(r: Registry)
    requires GetInstance(r).Success?
    ensures GetInstance(GetInstance(r).value.registry)
            == Success(GetInstance(r).value)
  {
  }

  /** Handing over another builder after the instance exists leaves the
      instance `getInstance` returns as it was. */
  lemma LaterBuilderIgnored(r: Registry, b: Option<Builder>)
    requires GetInstance(r).Success?
    ensures GetInstance(SetBuilder(GetInstance(r).value.registry, b)).Success?
    ensures GetInstance(SetBuilder(GetInstance(r).value.registry, b)).value.instance
            == GetInstance(r).value.instance
  {
  }

  /** The sequence an application runs at start-up: set a builder on a fresh
      class, then get the instance, which is exactly `Build` of that builder
      with the settings copied unchanged. */
  lemma FirstInstanceFromBuilder(b: Builder)
    ensures GetInstance(SetBuilder(Unloaded, Some(b))).Success?
    ensures GetInstance(SetBuilder(Unloaded, Some(b))).value.instance
            == Fresh(Build(b).config)
    ensures Build(b).config.threshold == b.numOpensThreshold
  {
  }

  /** Handing over a null builder before any instance exists makes the next
      `getInstance` fail, whatever builder was set before. */
  lemma NullBuilderFails(r: Registry)
    requires r.instance.None?
    ensures GetInstance(SetBuilder(r, None)) == Failure(NullBuilder)
  {
  }
}
