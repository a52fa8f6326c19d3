/**
 * Celebrity detection metadata and its builder.
 *
 * Type parameters throughout: C is the celebrity, P the pose, F a facial
 * feature and U a URL; all four are opaque here.
 */
module PredictionsModels {
  import opened Wrappers

  /** The immutable result value: every field is final, the pose may be null. */
  datatype CelebrityDetails<C, P, F, U> =
    CelebrityDetails(celebrity: C, pose: Option<P>, facialFeatures: seq<F>, urls: seq<U>)
  {
    function GetCelebrity(): C { celebrity }

    function GetPose(): Option<P> { pose }

    /** The list getters hand out an unmodifiable view of the same contents. */
    function GetFacialFeatures(): seq<F> { facialFeatures }

    function GetUrls(): seq<U> { urls }
  }

  /** The four fields of a builder, as one value. */
  datatype BuilderState<C, P, F, U> =
    BuilderState(celebrity: Option<C>, pose: Option<P>, facialFeatures: seq<F>, urls: seq<U>)

  /** What a freshly made builder holds: no celebrity, no pose, two empty lists. */
  function Initial<C, P, F, U>(): (s: BuilderState<C, P, F, U>)
    ensures s.celebrity.None? && s.pose.None?
    ensures |s.facialFeatures| == 0 && |s.urls| == 0
  {
    BuilderState(None, None, [], [])
  }

  /** One setter call on a builder, with its (possibly null) argument. */
  datatype Setter<C, P, F, U> =
    | CelebritySetter(celebrity: Option<C>)
    | PoseSetter(pose: Option<P>)
    | FacialFeaturesSetter(facialFeatures: Option<seq<F>>)
    | UrlsSetter(urls: Option<seq<U>>)
  {
    /** Every setter but the pose setter rejects null. */
    predicate Accepts() {
      match this
      case CelebritySetter(c) => c.Some?
      case PoseSetter(_) => true
      case FacialFeaturesSetter(fs) => fs.Some?
      case UrlsSetter(us) => us.Some?
    }
  }

  /** The effect of one setter call on the builder's fields. */
  function Step<C, P, F, U>(s: BuilderState<C, P, F, U>, call: Setter<C, P, F, U>)
    : (r: Result<BuilderState<C, P, F, U>>)
    ensures r.Ok? <==> call.Accepts()
    ensures r.Failure? ==> r.error == NullPointerException
    ensures r.Ok? && !call.CelebritySetter? ==> r.value.celebrity == s.celebrity
    ensures r.Ok? && !call.PoseSetter? ==> r.value.pose == s.pose
    ensures r.Ok? && !call.FacialFeaturesSetter? ==> r.value.facialFeatures == s.facialFeatures
    ensures r.Ok? && !call.UrlsSetter? ==> r.value.urls == s.urls
    ensures r.Ok? && call.CelebritySetter? ==> r.value.celebrity == call.celebrity
    ensures r.Ok? && call.PoseSetter? ==> r.value.pose == call.pose
    ensures r.Ok? && call.FacialFeaturesSetter? ==> Some(r.value.facialFeatures) == call.facialFeatures
    ensures r.Ok? && call.UrlsSetter? ==> Some(r.value.urls) == call.urls
  {
    match call
    case CelebritySetter(c) =>
      if c.None? then Failure(NullPointerException) else Ok(s.(celebrity := c))
    case PoseSetter(p) =>
      Ok(s.(pose := p))
    case FacialFeaturesSetter(fs) =>
      if fs.None? then Failure(NullPointerException) else Ok(s.(facialFeatures := fs.value))
    case UrlsSetter(us) =>
      if us.None? then Failure(NullPointerException) else Ok(s.(urls := us.value))
  }

  /**
   * A fluent chain of setter calls, `b.celebrity(c).pose(p)...`: the first
   * call that throws ends the chain. This is the value of the chain
   * expression; the writes made before the throw stay in the builder object,
   * as the `Builder` methods below show, and a caller that catches the
   * exception can still use them.
   */
  function Run<C, P, F, U>(s: BuilderState<C, P, F, U>, calls: seq<Setter<C, P, F, U>>)
    : Result<BuilderState<C, P, F, U>>
    decreases |calls|
  {
    if calls == [] then Ok(s)
    else
      match Step(s, calls[0])
      case Failure(e) => Failure(e)
      case Ok(t) => Run(t, calls[1..])
  }

  /** `build()`: copies the fields, and throws when no celebrity was set. */
  function BuildOf<C, P, F, U>(s: BuilderState<C, P, F, U>): (r: Result<CelebrityDetails<C, P, F, U>>)
    ensures r.Failure? <==> s.celebrity.None?
    ensures r.Failure? ==> r.error == NullPointerException
    ensures r.Ok? ==> Some(r.value.GetCelebrity()) == s.celebrity
    ensures r.Ok? ==> r.value.GetPose() == s.pose
    ensures r.Ok? ==> r.value.GetFacialFeatures() == s.facialFeatures
    ensures r.Ok? ==> r.value.GetUrls() == s.urls
  {
    match s.celebrity
    case None => Failure(NullPointerException)
    case Some(c) => Ok(CelebrityDetails(c, s.pose, s.facialFeatures, s.urls))
  }

  // ---------------------------------------------------------------------
  // Reference definition: a field holds the value of its LAST write.

  /**
   * The value written by the last element of `xs` that writes at all
   * (`write(x).Some?`), or `d` when none does.
   */
  function LastWrite<T, A>(xs: seq<T>, write: T -> Option<A>, d: A): A
    decreases |xs|
  {
    if xs == [] then d
    else
      match write(xs[|xs| - 1])
      case Some(a) => a
      case None => LastWrite(xs[..|xs| - 1], write, d)
  }

  function CelebrityWritten<C, P, F, U>(call: Setter<C, P, F, U>): Option<Option<C>> {
    if call.CelebritySetter? && call.celebrity.Some? then Some(call.celebrity) else None
  }

  function PoseWritten<C, P, F, U>(call: Setter<C, P, F, U>): Option<Option<P>> {
    if call.PoseSetter? then Some(call.pose) else None
  }

  function FacialFeaturesWritten<C, P, F, U>(call: Setter<C, P, F, U>): Option<seq<F>> {
    if call.FacialFeaturesSetter? && call.facialFeatures.Some? then Some(call.facialFeatures.value) else None
  }

  function UrlsWritten<C, P, F, U>(call: Setter<C, P, F, U>): Option<seq<U>> {
    if call.UrlsSetter? && call.urls.Some? then Some(call.urls.value) else None
  }

  /** The state whose every field holds its last write in `calls`, starting from `s`. */
  function LastWrites<C, P, F, U>(s: BuilderState<C, P, F, U>, calls: seq<Setter<C, P, F, U>>)
    : BuilderState<C, P, F, U>
  {
    BuilderState(
      LastWrite(calls, CelebrityWritten, s.celebrity),
      LastWrite(calls, PoseWritten, s.pose),
      LastWrite(calls, FacialFeaturesWritten, s.facialFeatures),
      LastWrite(calls, UrlsWritten, s.urls))
  }

  /** Peeling off the first element: its write becomes the new default. */
  lemma {:induction false} LastWriteFirst<T, A>(xs: seq<T>, write: T -> Option<A>, d: A)
    requires xs != []
    ensures LastWrite(xs, write, d)
         == LastWrite(xs[1..], write, match write(xs[0]) case Some(a) => a case None => d)
    decreases |xs|
  {
    if |xs| > 1 {
      var init := xs[..|xs| - 1];
      assert xs[1..][..|xs[1..]| - 1] == init[1..];
      assert xs[1..][|xs[1..]| - 1] == xs[|xs| - 1];
      assert init[0] == xs[0];
      if write(xs[|xs| - 1]).None? {
        LastWriteFirst(init, write, d);
      }
    }
  }

  /** A chain of setter calls completes exactly when no call passes null where null is rejected. */
  lemma {:induction false} RunOkIff<C, P, F, U>(s: BuilderState<C, P, F, U>, calls: seq<Setter<C, P, F, U>>)
    ensures Run(s, calls).Ok? <==> forall i :: 0 <= i < |calls| ==> calls[i].Accepts()
    ensures Run(s, calls).Failure? ==> Run(s, calls).error == NullPointerException
    decreases |calls|
  {
    if calls != [] {
      var r := Step(s, calls[0]);
      if r.Ok? {
        RunOkIff(r.value, calls[1..]);
        assert forall i :: 1 <= i < |calls| ==> calls[i] == calls[1..][i - 1];
      }
    }
  }

  /** Last write wins: after a chain that completes, each field holds its own last write. */
  lemma {:induction false} RunIsLastWrites<C, P, F, U>(s: BuilderState<C, P, F, U>, calls: seq<Setter<C, P, F, U>>)
    requires Run(s, calls).Ok?
    ensures Run(s, calls).value == LastWrites(s, calls)
    decreases |calls|
  {
    if calls != [] {
      var t := Step(s, calls[0]).value;
      RunIsLastWrites(t, calls[1..]);
      LastWriteFirst(calls, CelebrityWritten, s.celebrity);
      LastWriteFirst(calls, PoseWritten, s.pose);
      LastWriteFirst(calls, FacialFeaturesWritten, s.facialFeatures);
      LastWriteFirst(calls, UrlsWritten, s.urls);
    }
  }

  /**
   * Some call in `calls` sets a non-null celebrity exactly when the last
   * celebrity write, with default `None`, is `Some`.
   */
  lemma {:induction false} LastCelebrityIsSet<C, P, F, U>(calls: seq<Setter<C, P, F, U>>)
    ensures LastWrite(calls, CelebrityWritten, None).Some?
        <==> exists i :: 0 <= i < |calls| && calls[i].CelebritySetter? && calls[i].celebrity.Some?
    decreases |calls|
  {
    if calls != [] {
      var init := calls[..|calls| - 1];
      LastCelebrityIsSet(init);
      assert forall i :: 0 <= i < |init| ==> init[i] == calls[i];
    }
  }

  /**
   * A fresh builder, a chain of setter calls, then `build()`: the chain
   * completes when no rejected null is passed, `build()` then succeeds
   * exactly when some call set a celebrity, and the built value carries the
   * last write of each field (defaults where there was none).
   */
  lemma ChainThenBuild<C, P, F, U>(calls: seq<Setter<C, P, F, U>>)
    ensures Run(Initial(), calls).Ok? <==> forall i :: 0 <= i < |calls| ==> calls[i].Accepts()
    ensures Run(Initial(), calls).Ok? ==>
      (BuildOf(Run(Initial(), calls).value).Ok? <==>
         exists i :: 0 <= i < |calls| && calls[i].CelebritySetter? && calls[i].celebrity.Some?)
    ensures Run(Initial(), calls).Ok? ==>
      BuildOf(Run(Initial(), calls).value) == BuildOf(LastWrites(Initial(), calls))
  {
    RunOkIff(Initial(), calls);
    if Run(Initial(), calls).Ok? {
      RunIsLastWrites(Initial(), calls);
      LastCelebrityIsSet(calls);
    }
  }

  // ---------------------------------------------------------------------
  // The builder object: four fields reassigned in place by its setters.

  class Builder<C, P, F, U> {
    var celebrity: Option<C>
    var pose: Option<P>
    var facialFeatures: seq<F>
    var urls: seq<U>

    /** The builder's fields as one value. */
    function State(): BuilderState<C, P, F, U>
      reads this
    {
      BuilderState(celebrity, pose, facialFeatures, urls)
    }

    /** `CelebrityDetails.builder()`: both lists start empty, nothing else is set. */
    constructor ()
      ensures celebrity == None && pose == None
      ensures facialFeatures == [] && urls == []
      ensures State() == Initial()
    {
      celebrity := None;
      pose := None;
      facialFeatures := [];
      urls := [];
    }

    /** Rejects null; otherwise replaces the celebrity and returns this builder. */
    method SetCelebrity(c: Option<C>) returns (r: Result<Builder<C, P, F, U>>)
      modifies this
      ensures c.None? ==> r == Failure(NullPointerException) && State() == old(State())
      ensures c.Some? ==> r == Ok(this)
      ensures c.Some? ==> (celebrity == c && pose == old(pose) &&
                           facialFeatures == old(facialFeatures) && urls == old(urls))
      ensures Step(old(State()), CelebritySetter(c)) == if r.Ok? then Ok(State()) else Failure(r.error)
    {
      if c.None? {
        return Failure(NullPointerException);
      }
      celebrity := c;
      r := Ok(this);
    }

    /** Accepts null; replaces the pose and returns this builder. */
    method SetPose(p: Option<P>) returns (r: Builder<C, P, F, U>)
      modifies this
      ensures r == this
      ensures pose == p && celebrity == old(celebrity)
           && facialFeatures == old(facialFeatures) && urls == old(urls)
      ensures Step(old(State()), PoseSetter(p)) == Ok(State())
    {
      pose := p;
      r := this;
    }

    /** Rejects null; otherwise replaces the facial features and returns this builder. */
    method SetFacialFeatures(fs: Option<seq<F>>) returns (r: Result<Builder<C, P, F, U>>)
      modifies this
      ensures fs.None? ==> r == Failure(NullPointerException) && State() == old(State())
      ensures fs.Some? ==> r == Ok(this)
      ensures fs.Some? ==> (facialFeatures == fs.value && celebrity == old(celebrity) &&
                            pose == old(pose) && urls == old(urls))
      ensures Step(old(State()), FacialFeaturesSetter(fs)) == if r.Ok? then Ok(State()) else Failure(r.error)
    {
      if fs.None? {
        return Failure(NullPointerException);
      }
      facialFeatures := fs.value;
      r := Ok(this);
    }

    /** Rejects null; otherwise replaces the URLs and returns this builder. */
    method SetUrls(us: Option<seq<U>>) returns (r: Result<Builder<C, P, F, U>>)
      modifies this
      ensures us.None? ==> r == Failure(NullPointerException) && State() == old(State())
      ensures us.Some? ==> r == Ok(this)
      ensures us.Some? ==> (urls == us.value && celebrity == old(celebrity) &&
                            pose == old(pose) && facialFeatures == old(facialFeatures))
      ensures Step(old(State()), UrlsSetter(us)) == if r.Ok? then Ok(State()) else Failure(r.error)
    {
      if us.None? {
        return Failure(NullPointerException);
      }
      urls := us.value;
      r := Ok(this);
    }

    /** The package getter used by `build()`: throws while no celebrity is set. */
    function GetCelebrity(): (r: Result<C>)
      reads this
      ensures r.Ok? <==> celebrity.Some?
      ensures r.Ok? ==> Some(r.value) == celebrity
      ensures r.Failure? ==> r.error == NullPointerException
    {
      match celebrity
      case None => Failure(NullPointerException)
      case Some(c) => Ok(c)
    }

    function GetPose(): Option<P>
      reads this
    {
      pose
    }

    /** Never null here: the list fields only ever hold non-null lists. */
    function GetFacialFeatures(): seq<F>
      reads this
    {
      facialFeatures
    }

    function GetUrls(): seq<U>
      reads this
    {
      urls
    }

    /**
     * Copies the fields into a new immutable value through the package
     * getters; the builder itself is left as it was.
     */
    method Build() returns (r: Result<CelebrityDetails<C, P, F, U>>)
      ensures r.Failure? <==> celebrity.None?
      ensures r.Failure? ==> r.error == NullPointerException
      ensures r.Ok? ==> (Some(r.value.GetCelebrity()) == celebrity && r.value.GetPose() == pose &&
                         r.value.GetFacialFeatures() == facialFeatures && r.value.GetUrls() == urls)
      ensures r == BuildOf(State())
    {
      var c := GetCelebrity();
      if c.Failure? {
        return Failure(c.error);
      }
      r := Ok(CelebrityDetails(c.value, GetPose(), GetFacialFeatures(), GetUrls()));
    }
  }

  /**
   * A client of the builder: the chain `builder().celebrity(c).pose(p)` then
   * `build()` twice gives two values with equal contents, with empty lists.
   * An example of `Build` leaving the builder as it was.
   */
  method BuildTwice<C, P, F, U>(c: C, p: Option<P>)
    returns (first: Result<CelebrityDetails<C, P, F, U>>, second: Result<CelebrityDetails<C, P, F, U>>)
    ensures first == second
    ensures first.Ok? && first.value == CelebrityDetails(c, p, [], [])
  {
    var b := new Builder<C, P, F, U>();
    var r := b.SetCelebrity(Some(c));
    var b' := b.SetPose(p);
    first := b'.Build();
    second := b.Build();
  }
}
