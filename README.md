# Celebrity details builder and the operation envelope

A model of two pieces of the Amplify Android framework:

- **`CelebrityDetails` and its `Builder`** (predictions models). The builder
  starts with no celebrity, no pose and two empty lists. Its setters for the
  celebrity, the facial features and the URLs throw `NullPointerException` on
  null; the pose setter accepts null. Each setter overwrites only its own field
  and returns the same builder. `build()` copies the four fields into an
  immutable `CelebrityDetails`, and throws when no celebrity was set, because
  the package getter it goes through calls `requireNonNull`.
- **`AmplifyOperation`** (core async). The constructor stores a category tag
  and a request and draws an operation id once; the optional listener is
  accepted and not kept; `start()` does nothing; the getters return the stored
  values.

Java `null` is `Option.None`; a thrown `NullPointerException` is
`Result.Failure(NullPointerException)`. The builder is a class whose setters
reassign its fields (`modifies this`); `CelebrityDetails` is a datatype, so
its values cannot change and repeated reads agree. The pure layer beside the
class (`BuilderState`, `Setter`, `Step`, `Run`, `BuildOf`) describes a fluent
chain of setter calls, `builder().celebrity(c).pose(p)...build()`, and every
setter's `ensures` ties it to `Step`. `LastWrite` is an independent reference
definition, read from the end of the chain: each field holds the value of its
last write. The lemmas prove the chain agrees with it. `AmplifyOperation` is
a class with `const` fields. Id generation is a `UuidSource` object passed to
the constructor, which never hands out an id twice; ids are distinct among
operations made from the same source.

## Model

| member | source | states |
|---|---|---|
| `PredictionsModels.Initial` | core/src/main/java/com/amplifyframework/predictions/models/CelebrityDetails.java:100-103 | a new builder has no celebrity, no pose and empty facial-feature and URL lists |
| `PredictionsModels.Builder.constructor` | core/src/main/java/com/amplifyframework/predictions/models/CelebrityDetails.java:86-103 | `builder()` yields a builder whose fields are exactly the initial state |
| `PredictionsModels.Step` | core/src/main/java/com/amplifyframework/predictions/models/CelebrityDetails.java:111-147 | a setter call succeeds iff its argument is non-null or it is the pose setter; a failure is a NullPointerException; on success the setter's own field holds exactly its argument and every other field is unchanged |
| `PredictionsModels.Builder.SetCelebrity` | core/src/main/java/com/amplifyframework/predictions/models/CelebrityDetails.java:111-114 | null throws and leaves the builder unchanged; otherwise stores the celebrity, keeps the other three fields, returns this builder |
| `PredictionsModels.Builder.SetPose` | core/src/main/java/com/amplifyframework/predictions/models/CelebrityDetails.java:122-125 | stores exactly the given pose, null included, keeps the other three fields, returns this builder |
| `PredictionsModels.Builder.SetFacialFeatures` | core/src/main/java/com/amplifyframework/predictions/models/CelebrityDetails.java:133-136 | null throws and leaves the builder unchanged; otherwise stores the list, keeps the other three fields, returns this builder |
| `PredictionsModels.Builder.SetUrls` | core/src/main/java/com/amplifyframework/predictions/models/CelebrityDetails.java:144-147 | null throws and leaves the builder unchanged; otherwise stores the list, keeps the other three fields, returns this builder |
| `PredictionsModels.Builder.GetCelebrity` | core/src/main/java/com/amplifyframework/predictions/models/CelebrityDetails.java:159-162 | returns the celebrity when set and throws NullPointerException exactly when it is null |
| `PredictionsModels.BuildOf` | core/src/main/java/com/amplifyframework/predictions/models/CelebrityDetails.java:37-79 | building fails iff the celebrity is unset; otherwise the value's getters return exactly the builder's celebrity, pose, facial features and URLs |
| `PredictionsModels.Builder.Build` | core/src/main/java/com/amplifyframework/predictions/models/CelebrityDetails.java:155-177 | fails with NullPointerException iff no celebrity is set; otherwise the built value's getters return the builder's four fields; the builder is not modified |
| `PredictionsModels.RunOkIff` | core/src/main/java/com/amplifyframework/predictions/models/CelebrityDetails.java:111-147 | a chain of setter calls completes iff no call passes null to a null-rejecting setter; otherwise it throws NullPointerException |
| `PredictionsModels.RunIsLastWrites` | core/src/main/java/com/amplifyframework/predictions/models/CelebrityDetails.java:111-147 | after a chain that completes, each field holds the value of its last write (last write wins), or its earlier value if never written |
| `PredictionsModels.LastCelebrityIsSet` | core/src/main/java/com/amplifyframework/predictions/models/CelebrityDetails.java:111-114 | starting from no celebrity, a chain leaves a celebrity set iff some call in it set a non-null celebrity |
| `PredictionsModels.ChainThenBuild` | core/src/main/java/com/amplifyframework/predictions/models/CelebrityDetails.java:86-177 | fresh builder, setter chain, `build()`: the chain completes iff no rejected null is passed; `build()` then succeeds iff some call set a celebrity, and yields the last write of each field |
| `PredictionsModels.BuildTwice` | core/src/main/java/com/amplifyframework/predictions/models/CelebrityDetails.java:155-157 | an example of `Build` not modifying the builder: on `builder().celebrity(c).pose(p)`, two `build()` calls give values with equal contents (c, p, two empty lists) |
| `CoreAsync.UuidSource.RandomUuid` | amplify-core/src/main/java/com/amplifyframework/core/async/AmplifyOperation.java:75 | each drawn id was not issued before and is recorded as issued |
| `CoreAsync.AmplifyOperation.constructor` | amplify-core/src/main/java/com/amplifyframework/core/async/AmplifyOperation.java:70-93 | the getters return exactly the given category and request; the id is fresh; the listener leaves no trace in the operation's state |
| `CoreAsync.AmplifyOperation.WithoutListener` | amplify-core/src/main/java/com/amplifyframework/core/async/AmplifyOperation.java:58-61 | the two-argument form gives the same guarantees as the three-argument one with a null listener |
| `CoreAsync.AmplifyOperation.Start` | amplify-core/src/main/java/com/amplifyframework/core/async/AmplifyOperation.java:78-81 | `start()` changes nothing in the operation |
| `CoreAsync.TwoOperations` | amplify-core/src/main/java/com/amplifyframework/core/async/AmplifyOperation.java:44-47 | two operations drawn from one id source have different ids and keep their own request and category, with or without a listener |

The getters `CelebrityDetails.GetCelebrity`, `GetPose`, `GetFacialFeatures`,
`GetUrls` (CelebrityDetails.java:49-79), the builder's package getters
`GetPose`, `GetFacialFeatures`, `GetUrls` (CelebrityDetails.java:164-177) and
the operation's `GetRequest`, `GetOperationId`, `GetCategoryType`
(AmplifyOperation.java:83-93) only return a field. They carry no contract of
their own: the rows for `BuildOf`, `Build` and the two operation constructors
state what they return. An operation's fields are `const`, so its id, request
and category never change after construction.

## Left out

- `UUID.randomUUID()` is not modelled as random 128-bit values. `UuidSource` is an abstract source that never repeats an id, so ids are distinct among operations made from the same `UuidSource`; the model assumes, without enforcing it, that a process uses one source (Java draws from one process-wide generator), and the real random ids are distinct only with high probability.
- Object identity of built `CelebrityDetails` values is not modelled: Java's `build()` allocates a new object each time and the class does not override `equals`, so two builds are distinct objects that are not `equals`; here they are datatype values compared by contents.
- The listener passed to `AmplifyOperation` is typed `Option<object>`; `EventListener`, `AmplifyOperationRequest`, `AsyncOperation` and `CategoryType` are not part of this model. Request and category are type parameters.
- `AmplifyOperation` is abstract in Java; subclass behaviour is not part of this model. There is no lifecycle (pause, resume, cancel), event emission or Hub publish/subscribe in the modelled code, so none is modelled.
- Lists are values (`seq`). The Java builder and the built object keep a reference to the caller's list, so a caller that mutates its list afterwards changes what they see. That aliasing is not modelled. `Immutable.of` is taken to return the same contents.
- Null elements inside the lists, and the `@NonNull`/`@Nullable` annotations (which nothing enforces at run time), are not modelled: the celebrity, request and category are non-null by their types.
- The builder's package getters for the lists call `requireNonNull`; a list field can never hold null here, so that failure cannot arise.
- `Language.java` delegates to `Attribute` and `Attribute.Builder`, which are not part of this model; `EntityType.java` is an enum with no behaviour.
