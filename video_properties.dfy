/** What the Video constructor accepts, which argument it blames and what it
    stores, stated over the model in Models. */
module VideoProperties {
  import opened Wrappers
  import opened Guards
  import opened Models

  /** Reference reading of a chain of guard statements: run the guards of
      `order` one after another and report the first one that fails. */
  function FirstFailing<D, T, S, C>(a: Arguments<D, T, S, C>, order: seq<Field>): (r: Option<Field>)
    ensures r.None? <==> forall i :: 0 <= i < |order| ==> Passes(a, order[i])
    ensures r.Some? ==> exists i :: && 0 <= i < |order| && order[i] == r.value
                                    && !Passes(a, order[i])
                                    && forall j :: 0 <= j < i ==> Passes(a, order[j])
  {
    if order == [] then None
    else if !Passes(a, order[0]) then Some(order[0])
    else
      var rest := FirstFailing(a, order[1..]);
      assert forall i :: 1 <= i < |order| ==> order[i] == order[1..][i - 1];
      rest
  }

  /** Each field's guard appears exactly once in GuardOrder, at its rank. */
  lemma GuardOrderRanks()
    ensures |GuardOrder| == 9
    ensures forall i :: 0 <= i < |GuardOrder| ==> Rank(GuardOrder[i]) == i
  {
  }

  /** The constructor fails exactly when running the guards in the order
      id, channelId, author, title, description, thumbnails, duration,
      keywords, statistics meets a failing one, and it blames that one. */
  lemma BlamesFirstFailingGuard<D, T, S, C>(a: Arguments<D, T, S, C>)
    ensures NewVideo(a).Failure? <==> FirstFailing(a, GuardOrder).Some?
    ensures NewVideo(a).Failure? ==> FirstFailing(a, GuardOrder) == Some(NewVideo(a).error)
  {
  }

  /** Construction succeeds exactly when the eight guarded references are
      non-null and the duration is not negative. */
  lemma SucceedsIff<D, T, S, C>(a: Arguments<D, T, S, C>)
    ensures NewVideo(a).Success? <==>
      && a.id.Some? && a.channelId.Some? && a.author.Some? && a.title.Some?
      && a.description.Some? && a.thumbnails.Some? && a.duration >= 0
      && a.keywords.Some? && a.statistics.Some?
  {
  }

  /** On success every accessor returns the argument supplied for it;
      CaptionTrackInfos is the `trackInfos` argument. */
  lemma AccessorsReturnArguments<D, T, S, C>(a: Arguments<D, T, S, C>)
    requires NewVideo(a).Success?
    ensures var v := NewVideo(a).value;
      && Some(v.id) == a.id && Some(v.channelId) == a.channelId
      && Some(v.author) == a.author && v.uploadDate == a.uploadDate
      && Some(v.title) == a.title && Some(v.description) == a.description
      && Some(v.thumbnails) == a.thumbnails && v.duration == a.duration
      && Some(v.keywords) == a.keywords && Some(v.statistics) == a.statistics
      && v.captionTrackInfos == a.trackInfos
  {
  }

  /** Every video value is what the constructor builds from its own
      accessors: no constructed video is lost and none is reachable otherwise. */
  lemma ConstructsEveryVideo<D, T, S, C>(v: Video<D, T, S, C>)
    ensures NewVideo(ArgsOf(v)) == Success(v)
  {
  }

  /** A field whose argument alone is bad is the field blamed. */
  lemma BlamesTheOnlyBadArgument<D, T, S, C>(a: Arguments<D, T, S, C>, f: Field)
    requires !Passes(a, f)
    requires forall g :: g != f ==> Passes(a, g)
    ensures NewVideo(a) == Failure(f)
  {
  }

  /** The caption-track argument is never guarded: replacing it by anything,
      null or empty included, changes neither whether construction fails nor
      which field is blamed, and it is stored as given. */
  lemma TrackInfosUnchecked<D, T, S, C>(a: Arguments<D, T, S, C>, t: Option<seq<C>>)
    ensures NewVideo(a.(trackInfos := t)) ==
      match NewVideo(a)
      case Success(v) => Success(v.(captionTrackInfos := t))
      case Failure(e) => Failure(e)
  {
  }

  /** The upload date is never guarded: any value is accepted and stored. */
  lemma UploadDateUnchecked<D, T, S, C>(a: Arguments<D, T, S, C>, d: D)
    ensures NewVideo(a.(uploadDate := d)) ==
      match NewVideo(a)
      case Success(v) => Success(v.(uploadDate := d))
      case Failure(e) => Failure(e)
  {
  }

  /** A zero duration passes its guard. */
  lemma ZeroDurationAccepted<D, T, S, C>(a: Arguments<D, T, S, C>)
    requires && a.id.Some? && a.channelId.Some? && a.author.Some? && a.title.Some?
             && a.description.Some? && a.thumbnails.Some?
             && a.keywords.Some? && a.statistics.Some?
    requires a.duration == 0
    ensures NewVideo(a).Success? && NewVideo(a).value.duration == 0
  {
  }

  /** A negative duration is blamed once the six guards before it have passed,
      whatever the keywords and statistics arguments are. */
  lemma NegativeDurationBlamed<D, T, S, C>(a: Arguments<D, T, S, C>)
    requires && a.id.Some? && a.channelId.Some? && a.author.Some? && a.title.Some?
             && a.description.Some? && a.thumbnails.Some?
    requires a.duration < 0
    ensures NewVideo(a) == Failure(Duration)
  {
  }

  /** A null channel id is rejected as soon as the id guard has passed, even
      though the property's documentation suggests it might be null for videos
      obtained through playlist retrieval. */
  lemma NullChannelIdRejected<D, T, S, C>(a: Arguments<D, T, S, C>)
    requires a.id.Some? && a.channelId.None?
    ensures NewVideo(a) == Failure(ChannelId)
  {
  }

  /** Only the keyword list is guarded, not its entries: once a non-null list
      is passed, replacing it by any other list, one holding null entries
      included, changes neither whether construction fails nor which field is
      blamed, and the new list is stored as given. */
  lemma KeywordEntriesUnchecked<D, T, S, C>(a: Arguments<D, T, S, C>, k: seq<Option<string>>)
    requires a.keywords.Some?
    ensures NewVideo(a.(keywords := Some(k))) ==
      match NewVideo(a)
      case Success(v) => Success(v.(keywords := k))
      case Failure(e) => Failure(e)
  {
  }

  /** Only nullness is guarded: empty strings are accepted for every string
      argument, the id included. */
  lemma EmptyStringsAccepted<D, T, S, C>(a: Arguments<D, T, S, C>)
    requires a.id == Some("") && a.channelId == Some("") && a.author == Some("")
    requires a.title == Some("") && a.description == Some("")
    requires a.thumbnails.Some? && a.duration >= 0 && a.keywords.Some? && a.statistics.Some?
    ensures NewVideo(a).Success?
    ensures var v := NewVideo(a).value;
      v.id == "" && v.channelId == "" && v.author == "" && v.title == "" && v.description == ""
  {
  }

  /** The string form of a constructed video is the title argument. */
  lemma ToStringIsTitleArgument<D, T, S, C>(a: Arguments<D, T, S, C>)
    requires NewVideo(a).Success?
    ensures Some(ToString(NewVideo(a).value)) == a.title
  {
  }

  /** The string form depends on the title alone. */
  lemma ToStringOnlyTitle<D, T, S, C>(v: Video<D, T, S, C>, w: Video<D, T, S, C>)
    ensures ToString(v) == ToString(w) <==> v.title == w.title
  {
  }

  /** Distinct fields are reported under distinct parameter names. */
  lemma ParamNamesDistinct(f: Field, g: Field)
    ensures ParamName(f) == ParamName(g) <==> f == g
  {
  }

  /** A worked example: a valid argument list with an empty description and
      caption-track list, a 90-second duration (900000000 ticks) and two
      keywords, constructs the video holding exactly those values, whose
      string form is "Hello". Dates, thumbnails and statistics are stand-ins. */
  lemma WorkedExample()
    ensures var a := Arguments(Some("abc123"), Some("chXYZ"), Some("Jane"), 20200101,
                               Some("Hello"), Some(""), Some(1), 900_000_000,
                               Some([Some("a"), Some("b")]), Some(2), Some([]));
      var r: Result<Video<int, int, int, int>, Field> := NewVideo(a);
      && r == Success(Video("abc123", "chXYZ", "Jane", 20200101, "Hello", "", 1,
                            900_000_000, [Some("a"), Some("b")], 2, Some([])))
      && ToString(r.value) == "Hello"
  {
  }
}
