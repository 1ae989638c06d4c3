# Video metadata: a verified model of YoutubeExplode's `Video` constructor

YoutubeExplode represents one YouTube video as a `Video` object whose
properties are get-only.
Its constructor takes eleven arguments (`id`, `channelId`, `author`,
`uploadDate`, `title`, `description`, `thumbnails`, `duration`, `keywords`,
`statistics`, `trackInfos`). It guards and stores the arguments one after
another, each in a get-only property: nine of them pass a guard first, while
`uploadDate` and `trackInfos` are stored unchecked. A failing guard throws
before the object escapes, so no partly built video is ever observed.
`ToString` returns the title.

This project models that constructor as a pure validating function
`Models.NewVideo`. It returns either `Success(video)` or `Failure(field)`,
where `field` is the parameter whose guard failed first. It then proves what
is accepted, which argument is blamed, and what is stored.

Files:

- `wrappers.dfy` (`Wrappers`): `Option` stands for a nullable reference.
  `Result` is a failure-compatible construction outcome.
- `guards.dfy` (`Guards`): `GuardNotNull` and `GuardNotNegative`, the argument
  guards. It also defines the 64-bit tick-count type `TimeSpan`.
- `video.dfy` (`Models`): the argument list, the `Video` value, the guard
  order, `NewVideo` and `ToString`.
- `video_properties.dfy` (`VideoProperties`): a reference reading of the guard
  chain (`FirstFailing`) and lemmas connecting it to `NewVideo`.

Modelling choices:

- Nullable references (`string`, `ThumbnailSet`, `Statistics`, the lists) are
  `Option<...>`. `DateTimeOffset` and `TimeSpan` are value types, so they are
  never null.
- `TimeSpan` is its tick count: an `int` in the signed 64-bit range.
- The upload date, `ThumbnailSet`, `Statistics` and `ClosedCaptionTrackInfo`
  are the type parameters `D`, `T`, `S` and `C`. The model does not look
  inside them.
- The constructor's eleven parameters are collected in the record
  `Models.Arguments`, one field per parameter.
- A failure is tagged with a `Models.Field`. `Models.ParamName` gives the
  `nameof(...)` string it stands for.
- In a constructed `Video` every guarded property has a non-null type and the
  duration has a non-negative type, so an invalid video cannot be represented.
  `captionTrackInfos` stays `Option<seq<C>>` because it is not guarded.
- Keyword entries are `Option<string>`. The `[ItemNotNull]` annotation is only
  a static-analysis hint, and the guard checks the list, not its entries.
- `Video` is a datatype, so two videos built from the same arguments are
  equal as values. The C# class uses reference equality. The model does not
  represent object identity.

Two points where the code decides what the documentation leaves open:

- The guards reject only null, so an empty string passes for every string
  argument, the id included (`EmptyStringsAccepted`).
- The doc comment on `ChannelId` (Video.cs:26-28) says it seems it could be
  null when the video is retrieved through the playlist function. The
  constructor still guards it (Video.cs:81), and the model follows the code:
  a null channel id is rejected (`NullChannelIdRejected`).

## Model

| member | source | states |
|---|---|---|
| `Guards.GuardNotNull` | YoutubeExplode/Models/Video.cs:80-89 | a guarded reference passes exactly when it is non-null and is returned unchanged; otherwise the failure names the parameter |
| `Guards.GuardNotNegative` | YoutubeExplode/Models/Video.cs:87 | a duration passes exactly when it is zero or positive and is returned unchanged; otherwise the failure names `duration` |
| `Models.Rank` | YoutubeExplode/Models/Video.cs:80-89 | each guarded field has a position in the guard order, and the guard order holds that field at that position |
| `Models.AllPassIff` | YoutubeExplode/Models/Video.cs:80-89 | all guards pass exactly when the eight references are non-null and the duration is not negative |
| `Models.ArgsOf` | YoutubeExplode/Models/Video.cs:17-71 | the argument list read back from a video's accessors passes every guard |
| `Models.NewVideo` | YoutubeExplode/Models/Video.cs:76-91 | construction succeeds exactly when every guard passes; a failure blames a field whose guard fails while every earlier guard passes; on success the accessors give back exactly the arguments |
| `VideoProperties.FirstFailing` | YoutubeExplode/Models/Video.cs:80-89 | running guards one after another returns nothing exactly when all pass; otherwise it returns the first one in the order that fails, with all before it passing |
| `VideoProperties.GuardOrderRanks` | YoutubeExplode/Models/Video.cs:80-89 | the nine guards appear once each, in the source order |
| `VideoProperties.BlamesFirstFailingGuard` | YoutubeExplode/Models/Video.cs:80-89 | the constructor fails exactly when the sequential guard chain meets a failing guard, and it reports that guard's field |
| `VideoProperties.SucceedsIff` | YoutubeExplode/Models/Video.cs:80-89 | construction succeeds exactly when the id, channel id, author, title, description, thumbnails, keywords and statistics are non-null and the duration is not negative |
| `VideoProperties.AccessorsReturnArguments` | YoutubeExplode/Models/Video.cs:80-90 | on success each of the eleven accessors returns its argument; `CaptionTrackInfos` is `trackInfos` |
| `VideoProperties.ConstructsEveryVideo` | YoutubeExplode/Models/Video.cs:76-91 | every video is what the constructor builds from the video's own accessor values |
| `VideoProperties.BlamesTheOnlyBadArgument` | YoutubeExplode/Models/Video.cs:80-89 | when exactly one argument fails its guard, construction fails naming that argument |
| `VideoProperties.TrackInfosUnchecked` | YoutubeExplode/Models/Video.cs:71-90 | replacing `trackInfos` by any value, null or empty included, leaves the outcome and the blamed field unchanged and stores the new value |
| `VideoProperties.UploadDateUnchecked` | YoutubeExplode/Models/Video.cs:83 | replacing the upload date by any value leaves the outcome and the blamed field unchanged and stores the new value |
| `VideoProperties.ZeroDurationAccepted` | YoutubeExplode/Models/Video.cs:87 | a zero duration with all references non-null constructs a video of duration zero |
| `VideoProperties.NegativeDurationBlamed` | YoutubeExplode/Models/Video.cs:80-87 | a negative duration fails naming `duration` once the six earlier guards pass, whatever keywords and statistics are |
| `VideoProperties.NullChannelIdRejected` | YoutubeExplode/Models/Video.cs:81 | a null channel id fails naming `channelId` whenever the id is non-null, although the doc comment at lines 27-29 says it might be null |
| `VideoProperties.KeywordEntriesUnchecked` | YoutubeExplode/Models/Video.cs:88 | once a non-null keyword list is passed, any other list, null entries included, leaves the outcome and the blamed field unchanged and is stored as given |
| `VideoProperties.EmptyStringsAccepted` | YoutubeExplode/Models/Video.cs:80-85 | empty strings pass all five string guards and are stored as the id, channel id, author, title and description; only null is rejected |
| `VideoProperties.ToStringIsTitleArgument` | YoutubeExplode/Models/Video.cs:94 | the string form of a constructed video is its title argument |
| `VideoProperties.ToStringOnlyTitle` | YoutubeExplode/Models/Video.cs:94 | two videos have the same string form exactly when their titles are equal, whatever the other fields hold |
| `VideoProperties.ParamNamesDistinct` | YoutubeExplode/Models/Video.cs:80-89 | distinct guarded fields are reported under distinct parameter names |
| `VideoProperties.WorkedExample` | YoutubeExplode/Models/Video.cs:76-94 | a concrete valid argument list constructs the video holding exactly those values, and its string form is "Hello" |

## Left out

- Internals of `ThumbnailSet`, `Statistics` and `ClosedCaptionTrackInfo`: they are defined in other files and appear here only as type parameters.
- The concrete exception types thrown by the guards: `YoutubeExplode.Internal` is not part of this model. A failure is a tag naming the field.
- `DateTimeOffset` and `TimeSpan` arithmetic, time zones and offsets: the upload date is opaque, and the duration is only its tick count.
- JetBrains `[NotNull]` / `[ItemNotNull]` annotations: they are static-analysis hints with no run-time effect.
- Sharing of the stored lists: `Keywords` and `CaptionTrackInfos` hold the caller's own list objects (Video.cs:88, 90), read-only views the caller may still change. The model treats both lists as values, so it does not capture later changes the caller makes to them.
- Object identity, default reference equality and hashing: the model uses value equality.
- `Models.NewVideo`: the C# constructor throws before any reference to the object escapes. The model states the same thing by returning no video on failure, and does not model the exception mechanism.
