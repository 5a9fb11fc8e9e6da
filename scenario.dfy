/**
 * Clients of the handlers, walking through journal sessions. What they
 * assert follows from the handlers' contracts and the lemmas about them.
 */
module Scenario {
  import opened Wrappers
  import opened Records
  import opened Http
  import opened Text
  import opened Queries
  import opened Stories
  import opened Paths
  import opened Users

  const TripTitle: string := "Trip"
  const TripText: string := "Great time"
  const TripPlace: string := "Paris"
  const HomeTitle: string := "Home"
  const HomeText: string := "Quiet days"
  const HomePlace: string := "Oslo"
  const Found: string := "great"
  const Lacking: string := "Nope"
  const ImageName: string := "a.png"

  /** An account can log in with the password it registered, and a second registration of its email fails. */
  method AccountSession(registry: UserRegistry, email: string, password: string)
    requires registry.Valid() && email != "" && password != ""
    requires forall u :: u in registry.users ==> u.email != email
    modifies registry
  {
    var created := registry.CreateAccount("Ada", email, password);
    assert created.status == 201;
    CompareHash(password, password);
    assert registry.users[|registry.users| - 1].email == email;
    var login := registry.Login(email, password);
    assert login.status == 200;

    var before := registry.users;
    var again := registry.CreateAccount("Grace", email, "other");
    assert again == Fail(400, "User already exists") && registry.users == before;
  }

  /** An uploaded image can be deleted through the URL the upload returned. */
  method UploadSession(filename: string)
    requires IsFileName(filename)
  {
    var store := new StoryStore({filename});
    var upload := ImageUpload(Some(filename));
    var deleted := store.DeleteImage(upload.payload.imageUrl, false);
    assert deleted.status == 200 && !deleted.error && store.uploads == {};
  }

  /**
   * Deleting a story removes its record before the image is touched, even when
   * the image cannot be removed, and it is gone from the next listing.
   */
  method DeleteSession()
  {
    var store := new StoryStore({ImageName});
    var added := store.AddTravelStory(7, TripTitle, TripText, TripPlace, UploadUrl(ImageName), Some(1700000000000));
    var trip := added.payload.story;
    assert store.stories == [trip];
    BasenameOfUploadUrl(ImageName);

    var deleted := store.DeleteStory(trip.id, 7, true);
    assert deleted.status == 200 && !deleted.error;
    assert store.stories == [] && store.uploads == {ImageName};
    assert store.journal == [RecordDeleted(trip.id), RemovalFailed(ImageName)];
    assert GetAllStories(store.stories, 7).payload.stories == [];
  }

  /** A story is added, marked favourite by its owner only, and then listed first. */
  method TripSession()
  {
    var store := new StoryStore({});
    var added := store.AddTravelStory(7, TripTitle, TripText, TripPlace, "/img/a.png", Some(1700000000000));
    assert !added.error && !added.payload.story.isFavourite;
    var trip := added.payload.story;
    var other := store.AddTravelStory(7, HomeTitle, HomeText, HomePlace, "/img/b.png", Some(1600000000000));
    var home := other.payload.story;
    assert store.stories == [trip, home];

    // Another user can neither see nor touch the story.
    assert FindOwned([trip, home], trip.id, 8).None?;
    var foreign := store.UpdateIsFavourite(trip.id, 8, true);
    assert foreign.status == 400 && store.stories == [trip, home];

    assert FindOwned([trip, home], trip.id, 7) == Some(0);
    var marked := store.UpdateIsFavourite(trip.id, 7, true);
    var favTrip := trip.(isFavourite := true);
    assert store.stories == [favTrip, home];

    var list := GetAllStories(store.stories, 7);
    FavouriteHeadsListing(store.stories, 7, Everything, favTrip);
    assert list.payload.stories[0] == favTrip;
  }

  /** Search finds a story by a word of its text written in another case. */
  method SearchHitSession()
  {
    var store := new StoryStore({});
    var added := store.AddTravelStory(7, TripTitle, TripText, TripPlace, "/img/a.png", Some(1700000000000));
    var trip := added.payload.story;
    assert store.stories == [trip];

    var hit := Search(store.stories, 7, Found);
    FoundInTripText();
    assert trip in hit.payload.stories by {
      assert multiset(store.stories)[trip] > 0;
      assert multiset(hit.payload.stories)[trip] > 0;
    }

  }

  /** A word the story lacks finds nothing, and that is an empty answer rather than an error. */
  method SearchMissSession()
  {
    var store := new StoryStore({});
    var added := store.AddTravelStory(7, TripTitle, TripText, TripPlace, "/img/a.png", Some(1700000000000));
    assert store.stories == [added.payload.story];

    var miss := Search(store.stories, 7, Lacking);
    assert miss.status == 200 && !miss.error;
    LackingNowhere();
    NoMatchEmptyListing(store.stories, 7, Mentions(Lacking));
    assert miss.payload.stories == [];
  }

  lemma FoundInTripText()
    ensures ContainsIgnoreCase(TripText, Found)
  {
    ContainsIgnoreCaseSpec(TripText, Found);
    assert OccursAt(TripText, Found, 0);
  }

  lemma LackingNowhere()
    ensures !ContainsIgnoreCase(TripTitle, Lacking)
    ensures !ContainsIgnoreCase(TripText, Lacking)
    ensures !ContainsIgnoreCase(TripPlace, Lacking)
  {
    MissingLetterNoMatch(TripTitle, Lacking);
    MissingLetterNoMatch(TripText, Lacking);
    MissingLetterNoMatch(TripPlace, Lacking);
  }
}
