/**
 * The mutating story handlers and the image-file handlers, over one store:
 * the stories collection, the set of file names in the uploads directory,
 * and the journal of effects (record deletions and file removals) in the
 * order the server performs them. The caller's `userId` is the one the
 * access token carried.
 */
module Stories {
  import opened Wrappers
  import opened Seqs
  import opened Records
  import opened Http
  import opened Paths
  import opened Queries

  /** An effect on persistent state whose order matters. */
  datatype Effect =
    | RecordDeleted(id: Id)
    | FileRemoved(filename: string)
    | RemovalFailed(filename: string)   // logged with console.error

  /** `findOne({ _id: id, userId })`: only the owner can reach a story. */
  function FindOwned(rows: seq<Story>, id: Id, userId: Id): (r: Option<nat>)
    ensures r.Some? ==> r.value < |rows| && OwnedAs(rows[r.value], id, userId)
    ensures r.None? ==> forall s :: s in rows ==> !OwnedAs(s, id, userId)
  {
    IndexWhere(rows, (s: Story) => OwnedAs(s, id, userId))
  }

  /** A falsy `visitedDate`: absent, or the number 0. */
  predicate MissingDate(visitedDate: Option<int>)
  {
    visitedDate.None? || visitedDate.value == 0
  }

  /**
   * `path.join(__dirname, 'uploads', f)` names a directory rather than a file:
   * the uploads directory itself or its parent.
   */
  predicate NamesDirectory(f: string)
  {
    f == "" || f == "." || f == ".."
  }

  /** `rows` without its `i`-th element. */
  function RemoveAt(rows: seq<Story>, i: nat): (r: seq<Story>)
    requires i < |rows|
    ensures |r| == |rows| - 1
    ensures forall k :: 0 <= k < i ==> r[k] == rows[k]
    ensures forall k :: i <= k < |r| ==> r[k] == rows[k + 1]
  {
    rows[..i] + rows[i + 1..]
  }

  /** Story identifiers are distinct. */
  ghost predicate DistinctIds(rows: seq<Story>)
  {
    forall i, j :: 0 <= i < j < |rows| ==> rows[i].id != rows[j].id
  }

  lemma RemoveAtKeepsIds(rows: seq<Story>, i: nat, bound: Id)
    requires i < |rows| && DistinctIds(rows)
    requires forall k :: 0 <= k < |rows| ==> rows[k].id < bound
    ensures DistinctIds(RemoveAt(rows, i))
    ensures forall k :: 0 <= k < |RemoveAt(rows, i)| ==> RemoveAt(rows, i)[k].id < bound
  {
    var r := RemoveAt(rows, i);
    forall a, b | 0 <= a < b < |r| ensures r[a].id != r[b].id {
      var a' := if a < i then a else a + 1;
      var b' := if b < i then b else b + 1;
      assert r[a] == rows[a'] && r[b] == rows[b'];
    }
  }

  /** Once a story is deleted, no listing of any user shows it again. */
  lemma DeletedStoryNotListed(rows: seq<Story>, i: nat, userId: Id, c: Criterion)
    requires i < |rows| && DistinctIds(rows)
    ensures forall x :: x in Query(RemoveAt(rows, i), userId, c) ==> x.id != rows[i].id
  {
    var rest := RemoveAt(rows, i);
    forall x | x in Query(rest, userId, c) ensures x.id != rows[i].id {
      ListingsAreOwnerScoped(rest, userId, c, x);
      var k :| 0 <= k < |rest| && rest[k] == x;
      if k < i {
        assert rows[k] == x;
      } else {
        assert rows[k + 1] == x;
      }
    }
  }

  class StoryStore {
    var stories: seq<Story>
    var uploads: set<string>
    var journal: seq<Effect>
    var nextId: Id

    /** Identifiers are fresh and distinct; the uploads directory holds plain file names. */
    ghost predicate Valid()
      reads this
    {
      (forall i :: 0 <= i < |stories| ==> stories[i].id < nextId) &&
      DistinctIds(stories) &&
      (forall f :: f in uploads ==> IsFileName(f))
    }

    constructor (files: set<string>)
      requires forall f :: f in files ==> IsFileName(f)
      ensures Valid()
      ensures stories == [] && uploads == files && journal == []
    {
      stories, uploads, journal, nextId := [], files, [], 0;
    }

    /** POST /add-travel-story: every field, the image URL included, is required. */
    method AddTravelStory(userId: Id, title: string, story: string, visitedLocation: string,
                          imageUrl: string, visitedDate: Option<int>) returns (r: Response)
      requires Valid()
      modifies this
      ensures Valid()
      ensures uploads == old(uploads) && journal == old(journal)
      ensures title == "" || story == "" || visitedLocation == "" || imageUrl == "" || MissingDate(visitedDate) ==>
        r == Fail(400, AllFieldsRequired) && stories == old(stories)
      ensures !(title == "" || story == "" || visitedLocation == "" || imageUrl == "" || MissingDate(visitedDate)) ==>
        var added := Story(old(nextId), userId, title, story, visitedLocation, imageUrl, visitedDate.value, false);
        stories == old(stories) + [added] &&
        (forall s :: s in old(stories) ==> s.id != added.id) &&
        r == Response(201, false, "Added Successfully", OneStory(added))
    {
      if title == "" || story == "" || visitedLocation == "" || imageUrl == "" || MissingDate(visitedDate) {
        return Fail(400, AllFieldsRequired);
      }
      var added := Story(nextId, userId, title, story, visitedLocation, imageUrl, visitedDate.value, false);
      stories := stories + [added];
      nextId := nextId + 1;
      r := Response(201, false, "Added Successfully", OneStory(added));
    }

    /**
     * PUT /edit-story/:id: the image URL is optional and falls back to the
     * placeholder; only the five edited fields change.
     */
    method EditStory(id: Id, userId: Id, title: string, story: string, visitedLocation: string,
                     imageUrl: string, visitedDate: Option<int>) returns (r: Response)
      requires Valid()
      modifies this
      ensures Valid()
      ensures uploads == old(uploads) && journal == old(journal)
      ensures title == "" || story == "" || visitedLocation == "" || MissingDate(visitedDate) ==>
        r == Fail(400, AllFieldsRequired) && stories == old(stories)
      ensures !(title == "" || story == "" || visitedLocation == "" || MissingDate(visitedDate)) &&
              FindOwned(old(stories), id, userId).None? ==>
        r == Fail(400, "Travel Story not found") && stories == old(stories)
      ensures !(title == "" || story == "" || visitedLocation == "" || MissingDate(visitedDate)) &&
              FindOwned(old(stories), id, userId).Some? ==>
        var i := FindOwned(old(stories), id, userId).value;
        var was := old(stories)[i];
        var now := Story(was.id, was.userId, title, story, visitedLocation,
                         if imageUrl == "" then PlaceholderUrl else imageUrl,
                         visitedDate.value, was.isFavourite);
        stories == old(stories)[i := now] &&
        r == Response(200, false, "Update Successful", OneStory(now))
    {
      if title == "" || story == "" || visitedLocation == "" || MissingDate(visitedDate) {
        return Fail(400, AllFieldsRequired);
      }
      var found := FindOwned(stories, id, userId);
      if found.None? {
        return Fail(400, "Travel Story not found");
      }
      var i := found.value;
      var edited := stories[i].(title := title, story := story, visitedLocation := visitedLocation,
                                imageUrl := if imageUrl == "" then PlaceholderUrl else imageUrl,
                                visitedDate := visitedDate.value);
      stories := stories[i := edited];
      r := Response(200, false, "Update Successful", OneStory(edited));
    }

    /**
     * DELETE /delete-story/:id: the record goes first; then removal of its
     * image from the uploads directory is attempted, and a failure there is
     * only logged. `diskFails` stands for any file-system fault beyond a
     * missing file.
     */
    method DeleteStory(id: Id, userId: Id, diskFails: bool) returns (r: Response)
      requires Valid()
      modifies this
      ensures Valid()
      ensures FindOwned(old(stories), id, userId).None? ==>
        r == Fail(404, "Travel story not found") &&
        stories == old(stories) && uploads == old(uploads) && journal == old(journal)
      ensures FindOwned(old(stories), id, userId).Some? ==>
        var i := FindOwned(old(stories), id, userId).value;
        var f := Basename(old(stories)[i].imageUrl);
        var removed := f in old(uploads) && !diskFails;
        stories == RemoveAt(old(stories), i) &&
        uploads == (if removed then old(uploads) - {f} else old(uploads)) &&
        journal == old(journal) + [RecordDeleted(id)] + [if removed then FileRemoved(f) else RemovalFailed(f)] &&
        r == Response(200, false, "Travel Story Deleted Successfully", Nothing)
    {
      var found := FindOwned(stories, id, userId);
      if found.None? {
        return Fail(404, "Travel story not found");
      }
      var i := found.value;
      var filename := Basename(stories[i].imageUrl);
      RemoveAtKeepsIds(stories, i, nextId);
      stories := RemoveAt(stories, i);
      journal := journal + [RecordDeleted(id)];
      // The unlink runs only after the record is gone, and its failure is only logged.
      Unlink(filename, diskFails);
      r := Response(200, false, "Travel Story Deleted Successfully", Nothing);
    }

    /** The callback-style `fs.unlink` of `uploads/filename`: a failure is logged, never raised. */
    method Unlink(filename: string, diskFails: bool)
      requires Valid()
      modifies this`uploads, this`journal
      ensures Valid()
      ensures var removed := filename in old(uploads) && !diskFails;
        uploads == (if removed then old(uploads) - {filename} else old(uploads)) &&
        journal == old(journal) + [if removed then FileRemoved(filename) else RemovalFailed(filename)]
    {
      if filename in uploads && !diskFails {
        uploads := uploads - {filename};
        journal := journal + [FileRemoved(filename)];
      } else {
        journal := journal + [RemovalFailed(filename)];
      }
    }

    /** PUT /update-is-favourite/:id: only the flag changes. */
    method UpdateIsFavourite(id: Id, userId: Id, isFavourite: bool) returns (r: Response)
      requires Valid()
      modifies this
      ensures Valid()
      ensures uploads == old(uploads) && journal == old(journal)
      ensures FindOwned(old(stories), id, userId).None? ==>
        r == Fail(400, "Travel Story not found") && stories == old(stories)
      ensures FindOwned(old(stories), id, userId).Some? ==>
        var i := FindOwned(old(stories), id, userId).value;
        var now := old(stories)[i].(isFavourite := isFavourite);
        stories == old(stories)[i := now] &&
        r == Response(200, false, "Update Succesful", OneStory(now))
    {
      var found := FindOwned(stories, id, userId);
      if found.None? {
        return Fail(400, "Travel Story not found");
      }
      var i := found.value;
      var now := stories[i].(isFavourite := isFavourite);
      stories := stories[i := now];
      r := Response(200, false, "Update Succesful", OneStory(now));
    }

    /**
     * DELETE /delete-image?imageUrl=…: removes `uploads/basename(imageUrl)`.
     * A path that exists but cannot be unlinked (a directory, or a disk
     * fault) is answered 500.
     */
    method DeleteImage(imageUrl: string, diskFails: bool) returns (r: Response)
      requires Valid()
      modifies this
      ensures Valid()
      ensures stories == old(stories) && journal == old(journal)
      ensures imageUrl == "" ==>
        r == Fail(400, "imageUrl parameter is required") && uploads == old(uploads)
      ensures imageUrl != "" ==>
        var f := Basename(imageUrl);
        if f in old(uploads) && !diskFails then
          uploads == old(uploads) - {f} &&
          r == Response(200, false, "Image deleted successfully ", Nothing)
        else if f in old(uploads) || NamesDirectory(f) then
          uploads == old(uploads) && r.status == 500 && r.error
        else
          uploads == old(uploads) && r == Fail(200, "Image not found")
    {
      if imageUrl == "" {
        return Fail(400, "imageUrl parameter is required");
      }
      var filename := Basename(imageUrl);
      var onDisk := filename in uploads || NamesDirectory(filename);
      if onDisk {
        if filename in uploads && !diskFails {
          uploads := uploads - {filename};
          r := Response(200, false, "Image deleted successfully ", Nothing);
        } else {
          r := Fail(500, UnlinkError);
        }
      } else {
        r := Fail(200, "Image not found");
      }
    }
  }

  /** The file system's message when an unlink throws (its exact text is not modelled). */
  const UnlinkError: string := "unlink failed"

  /** POST /image-upload: the stored file's public URL, or the placeholder when no file came. */
  function ImageUpload(file: Option<string>): (r: Response)
    ensures r.status == 201 && !r.error && r.payload.Image?
    ensures file.Some? ==> r.payload.imageUrl == UploadUrl(file.value)
    ensures file.Some? && IsFileName(file.value) ==> Basename(r.payload.imageUrl) == file.value
    ensures file.None? ==> r.payload.imageUrl == PlaceholderUrl
  {
    if file.Some? then
      assert IsFileName(file.value) ==> Basename(UploadUrl(file.value)) == file.value by {
        if IsFileName(file.value) { BasenameOfUploadUrl(file.value); }
      }
      Response(201, false, "", Image(UploadUrl(file.value)))
    else
      Response(201, false, "", Image(PlaceholderUrl))
  }
}
