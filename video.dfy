/** Information about one YouTube video: the immutable value that the Video
    constructor builds after guarding its arguments.

    Type parameters stand for types this model does not open up:
      D  the upload date (a DateTimeOffset),
      T  the ThumbnailSet,
      S  the Statistics,
      C  one ClosedCaptionTrackInfo. */
module Models {
  import opened Wrappers
  import opened Guards

  /** The constructor parameters that carry a guard, one per `nameof(...)`. */
  datatype Field =
    | Id | ChannelId | Author | Title | Description
    | Thumbnails | Duration | Keywords | Statistics

  /** The parameter name an invalid-argument failure reports for a field. */
  function ParamName(f: Field): string {
    match f
    case Id => "id"
    case ChannelId => "channelId"
    case Author => "author"
    case Title => "title"
    case Description => "description"
    case Thumbnails => "thumbnails"
    case Duration => "duration"
    case Keywords => "keywords"
    case Statistics => "statistics"
  }

  /** The constructor's argument list. Reference-typed arguments may be null
      (None); DateTimeOffset and TimeSpan are value types and cannot be. The
      keyword list may itself be null and so may each of its entries. */
  datatype Arguments<D, T, S, C> = Arguments(
    id: Option<string>,
    channelId: Option<string>,
    author: Option<string>,
    uploadDate: D,
    title: Option<string>,
    description: Option<string>,
    thumbnails: Option<T>,
    duration: TimeSpan,
    keywords: Option<seq<Option<string>>>,
    statistics: Option<S>,
    trackInfos: Option<seq<C>>)

  /** A constructed video. Every guarded property is non-null by its type and
      the duration is non-negative; CaptionTrackInfos is held exactly as it was
      passed, null included. */
  datatype Video<D, T, S, C> = Video(
    id: string,
    channelId: string,
    author: string,
    uploadDate: D,
    title: string,
    description: string,
    thumbnails: T,
    duration: NonNegativeTimeSpan,
    keywords: seq<Option<string>>,
    statistics: S,
    captionTrackInfos: Option<seq<C>>)

  /** The order in which the constructor runs its guards. */
  const GuardOrder: seq<Field> :=
    [Id, ChannelId, Author, Title, Description, Thumbnails, Duration, Keywords, Statistics]

  /** Position of a field's guard in GuardOrder. */
  function Rank(f: Field): (n: nat)
    ensures n < |GuardOrder| && GuardOrder[n] == f
  {
    match f
    case Id => 0
    case ChannelId => 1
    case Author => 2
    case Title => 3
    case Description => 4
    case Thumbnails => 5
    case Duration => 6
    case Keywords => 7
    case Statistics => 8
  }

  /** Whether the argument for field `f` gets past its guard. */
  predicate Passes<D, T, S, C>(a: Arguments<D, T, S, C>, f: Field) {
    match f
    case Id => a.id.Some?
    case ChannelId => a.channelId.Some?
    case Author => a.author.Some?
    case Title => a.title.Some?
    case Description => a.description.Some?
    case Thumbnails => a.thumbnails.Some?
    case Duration => a.duration >= 0
    case Keywords => a.keywords.Some?
    case Statistics => a.statistics.Some?
  }

  /** Every guard passes exactly when the eight guarded references are
      non-null and the duration is zero or positive. CaptionTrackInfos and the
      upload date take no part. */
  lemma AllPassIff<D, T, S, C>(a: Arguments<D, T, S, C>)
    ensures (forall f :: Passes(a, f)) <==>
      && a.id.Some? && a.channelId.Some? && a.author.Some? && a.title.Some?
      && a.description.Some? && a.thumbnails.Some? && a.duration >= 0
      && a.keywords.Some? && a.statistics.Some?
  {
    if && a.id.Some? && a.channelId.Some? && a.author.Some? && a.title.Some?
       && a.description.Some? && a.thumbnails.Some? && a.duration >= 0
       && a.keywords.Some? && a.statistics.Some?
    {
      forall f ensures Passes(a, f) {
        match f
        case Id =>
        case ChannelId =>
        case Author =>
        case Title =>
        case Description =>
        case Thumbnails =>
        case Duration =>
        case Keywords =>
        case Statistics =>
      }
    }
    if forall f :: Passes(a, f) {
      assert Passes(a, Id) && Passes(a, ChannelId) && Passes(a, Author);
      assert Passes(a, Title) && Passes(a, Description) && Passes(a, Thumbnails);
      assert Passes(a, Duration) && Passes(a, Keywords) && Passes(a, Statistics);
    }
  }

  /** The argument list a video holds: what each accessor returns, with the
      stored non-null references wrapped back as non-null arguments. */
  function ArgsOf<D, T, S, C>(v: Video<D, T, S, C>): (a: Arguments<D, T, S, C>)
    ensures forall f :: Passes(a, f)
  {
    Arguments(Some(v.id), Some(v.channelId), Some(v.author), v.uploadDate,
              Some(v.title), Some(v.description), Some(v.thumbnails), v.duration,
              Some(v.keywords), Some(v.statistics), v.captionTrackInfos)
  }

  /** The Video constructor: the guards in source order, the first failing one
      ending construction, then every argument stored as given. */
  function NewVideo<D, T, S, C>(a: Arguments<D, T, S, C>): (r: Result<Video<D, T, S, C>, Field>)
    ensures r.Success? <==> forall f :: Passes(a, f)
    ensures r.Failure? ==> !Passes(a, r.error)
    ensures r.Failure? ==> forall f :: Rank(f) < Rank(r.error) ==> Passes(a, f)
    ensures r.Success? ==> ArgsOf(r.value) == a
  {
    AllPassIff(a);
    var id :- GuardNotNull(a.id, Id);
    var channelId :- GuardNotNull(a.channelId, ChannelId);
    var author :- GuardNotNull(a.author, Author);
    var title :- GuardNotNull(a.title, Title);
    var description :- GuardNotNull(a.description, Description);
    var thumbnails :- GuardNotNull(a.thumbnails, Thumbnails);
    var duration :- GuardNotNegative(a.duration, Duration);
    var keywords :- GuardNotNull(a.keywords, Keywords);
    var statistics :- GuardNotNull(a.statistics, Statistics);
    Success(Video(id, channelId, author, a.uploadDate, title, description,
                  thumbnails, duration, keywords, statistics, a.trackInfos))
  }

  /** The string form of a video. */
  function ToString<D, T, S, C>(v: Video<D, T, S, C>): string {
    v.title
  }
}
