/** The audio comment record kept by the data source, as its callers use it:
    an identifier, an editable title and an optional file location. */
module Comments {

  datatype Option<+T> = None | Some(value: T)

  /** A universally unique identifier. The model only compares identifiers,
      so any type with equality serves. */
  type Uuid = nat

  /** A file location; the model never looks inside it. */
  type Url = string

  datatype AudioComment = AudioComment(id: Uuid, title: string, url: Option<Url>)

  /** The placeholder comment used before anything is selected. Each use of it
      in the app draws a new identifier, passed here as `id`. */
  function Empty(id: Uuid): (c: AudioComment)
    ensures c.id == id && c.title == "" && c.url == None
  {
    AudioComment(id, "", None)
  }

  /** No identifier occurs twice in the list. */
  predicate DistinctIds(s: seq<AudioComment>) {
    forall i, j :: 0 <= i < |s| && 0 <= j < |s| && i != j ==> s[i].id != s[j].id
  }

  /** No entry of the list carries `id`. */
  predicate FreshId(s: seq<AudioComment>, id: Uuid) {
    forall j :: 0 <= j < |s| ==> s[j].id != id
  }
}
