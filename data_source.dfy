/** The observable store behind the audio comments screen: an ordered list of
    comments and the comment currently shown in the player. */
module DataSource {
  import opened Comments
  import opened CommentList

  class AudioDataSource {
    /** The recordings, newest first. Only this class changes the list. */
    var audioComments: seq<AudioComment>
    /** The comment selected for playback, whose title the rename view edits. */
    var currentAudioComment: AudioComment

    /** The list never holds two comments with the same id. */
    predicate Valid()
      reads this
    {
      DistinctIds(audioComments)
    }

    /** The default store: no recordings, and the empty placeholder as the
        current comment. `emptyId` stands for the placeholder's fresh UUID. */
    constructor (emptyId: Uuid)
      ensures Valid()
      ensures audioComments == []
      ensures currentAudioComment.id == emptyId
      ensures currentAudioComment.title == "" && currentAudioComment.url == None
    {
      audioComments := [];
      currentAudioComment := Empty(emptyId);
    }

    /** The store for previews: with sample data it holds two comments titled
        "one" and "two", in that order; otherwise it is the default store.
        The three ids stand for the UUIDs drawn by the three comments built. */
    constructor WithSampleData(withSampleData: bool, emptyId: Uuid, oneId: Uuid, twoId: Uuid)
      requires emptyId != oneId && emptyId != twoId && oneId != twoId
      ensures Valid()
      ensures currentAudioComment == Empty(emptyId)
      ensures !withSampleData ==> audioComments == []
      ensures withSampleData ==> |audioComments| == 2
      ensures withSampleData ==> audioComments[0].title == "one" && audioComments[0].id == oneId
      ensures withSampleData ==> audioComments[1].title == "two" && audioComments[1].id == twoId
    {
      currentAudioComment := Empty(emptyId);
      if withSampleData {
        audioComments := [AudioComment(oneId, "one", None), AudioComment(twoId, "two", None)];
      } else {
        audioComments := [];
      }
    }

    /** The position of the first comment whose id is `id`, by a linear scan
        from the front. */
    method FirstIndexOf(id: Uuid) returns (r: Option<nat>)
      ensures r == FirstIndex(audioComments, id)
    {
      var i := 0;
      while i < |audioComments|
        invariant 0 <= i <= |audioComments|
        invariant forall k :: 0 <= k < i ==> audioComments[k].id != id
      {
        if audioComments[i].id == id {
          return Some(i);
        }
        i := i + 1;
      }
      return None;
    }

    /** A finished recording. Without a file location nothing happens; with
        one, a comment carrying it becomes the first entry of the list.
        `id` stands for the fresh UUID and `title` for the timestamp title. */
    method NewRecording(url: Option<Url>, id: Uuid, title: string)
      requires Valid()
      requires FreshId(audioComments, id)
      modifies this
      ensures Valid()
      ensures currentAudioComment == old(currentAudioComment)
      ensures url.None? ==> audioComments == old(audioComments)
      ensures url.Some? ==> |audioComments| == |old(audioComments)| + 1
      ensures url.Some? ==> audioComments[0] == AudioComment(id, title, url)
      ensures url.Some? ==> audioComments[1..] == old(audioComments)
    {
      if url.None? {
        return;
      }
      var comment := AudioComment(id, title, url);
      PrependFresh(audioComments, comment);
      audioComments := [comment] + audioComments;
    }

    /** Removes the comments at the given positions, all of which must be
        positions of the list. The survivors keep their order. */
    method Delete(offsets: set<nat>)
      requires Valid()
      requires forall o :: o in offsets ==> o < |audioComments|
      modifies this
      ensures Valid()
      ensures currentAudioComment == old(currentAudioComment)
      ensures audioComments == RemoveOffsets(old(audioComments), offsets)
      ensures |audioComments| == |old(audioComments)| - |offsets|
    {
      var s := audioComments;
      var kept: seq<AudioComment> := [];
      var i := 0;
      while i < |s|
        invariant 0 <= i <= |s|
        invariant kept == RemoveOffsets(s[..i], offsets)
      {
        assert s[..i + 1][..i] == s[..i];
        if i !in offsets {
          kept := kept + [s[i]];
        }
        i := i + 1;
      }
      assert s[..|s|] == s;
      RemoveOffsetsKeepsDistinct(s, offsets);
      RemoveOffsetsLength(s, offsets);
      audioComments := kept;
    }

    /** Assigning the current comment. When the new value has the same id as
        the old one it is a rename, and it overwrites the first list entry with
        that id (if any); otherwise it is a selection and the list is left as
        it was. */
    method SetCurrent(value: AudioComment)
      requires Valid()
      modifies this
      ensures Valid()
      ensures currentAudioComment == value
      ensures old(currentAudioComment).id != value.id ==> audioComments == old(audioComments)
      ensures old(currentAudioComment).id == value.id ==> audioComments == Rename(old(audioComments), value)
    {
      var oldValue := currentAudioComment;
      currentAudioComment := value;
      if oldValue.id == value.id {
        var index := FirstIndexOf(value.id);
        if index.None? {
          return;
        }
        RenameKeepsIds(audioComments, value);
        audioComments := audioComments[index.value := value];
      }
    }
  }
}
