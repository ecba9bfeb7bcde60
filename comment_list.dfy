/** Value-level definitions of what the data source does to its list of
    comments: the first-match search, the rename overwrite and removal of a
    set of offsets, together with the properties proved about them. */
module CommentList {
  import opened Comments

  /** The position of the first entry whose id is `id`, if there is one. */
  function FirstIndex(s: seq<AudioComment>, id: Uuid): (r: Option<nat>)
    ensures r.Some? ==> r.value < |s| && s[r.value].id == id
    ensures r.Some? ==> forall k :: 0 <= k < r.value ==> s[k].id != id
    ensures r.None? <==> FreshId(s, id)
  {
    if |s| == 0 then None
    else if s[0].id == id then Some(0)
    else
      match FirstIndex(s[1..], id)
      case None => None
      case Some(k) => Some(k + 1)
  }

  /** The list after `c` overwrites the first entry that shares its id;
      the list itself when no entry does. */
  function Rename(s: seq<AudioComment>, c: AudioComment): (r: seq<AudioComment>)
    ensures |r| == |s|
    ensures forall j :: 0 <= j < |s| ==>
      r[j] == if s[j].id == c.id && (forall k :: 0 <= k < j ==> s[k].id != c.id) then c else s[j]
  {
    match FirstIndex(s, c.id)
    case None => s
    case Some(i) => s[i := c]
  }

  /** The list without the entries at positions in `offsets`, survivors kept
      in their original order. Offsets at or past the end select nothing. */
  function RemoveOffsets<T>(s: seq<T>, offsets: set<nat>): (r: seq<T>)
    ensures |r| <= |s|
    ensures forall x :: x in r ==> x in s
  {
    if |s| == 0 then []
    else
      var rest := RemoveOffsets(s[..|s| - 1], offsets);
      if |s| - 1 in offsets then rest else rest + [s[|s| - 1]]
  }

  /** The positions below `n` that are not in `offsets`, in increasing order:
      an independent description of which entries survive a removal. */
  function SurvivorIndices(n: nat, offsets: set<nat>): (r: seq<nat>)
    ensures forall k :: 0 <= k < |r| ==> r[k] < n && r[k] !in offsets
    ensures forall k, l :: 0 <= k < l < |r| ==> r[k] < r[l]
    ensures forall i :: 0 <= i < n && i !in offsets ==> i in r
  {
    if n == 0 then []
    else
      var rest := SurvivorIndices(n - 1, offsets);
      if n - 1 in offsets then rest else rest + [n - 1]
  }

  /** Entry `k` of the result of a removal is the entry of the original list
      at the `k`-th surviving position. */
  lemma {:induction false} RemoveOffsetsSelects<T>(s: seq<T>, offsets: set<nat>)
    ensures |RemoveOffsets(s, offsets)| == |SurvivorIndices(|s|, offsets)|
    ensures forall k :: 0 <= k < |RemoveOffsets(s, offsets)| ==>
      RemoveOffsets(s, offsets)[k] == s[SurvivorIndices(|s|, offsets)[k]]
  {
    if |s| > 0 {
      var last := |s| - 1;
      var init := s[..last];
      RemoveOffsetsSelects(init, offsets);
      var rest, idx := RemoveOffsets(init, offsets), SurvivorIndices(last, offsets);
      assert forall k :: 0 <= k < |rest| ==> rest[k] == s[idx[k]];
      if last !in offsets {
        assert RemoveOffsets(s, offsets) == rest + [s[last]];
        assert SurvivorIndices(|s|, offsets) == idx + [last];
      }
    }
  }

  /** Offsets at or past the end of the list have no effect on a removal. */
  lemma {:induction false} RemoveOffsetsIgnoresPastEnd<T>(s: seq<T>, offsets: set<nat>, k: nat)
    requires k >= |s|
    ensures RemoveOffsets(s, offsets) == RemoveOffsets(s, offsets - {k})
  {
    if |s| > 0 {
      RemoveOffsetsIgnoresPastEnd(s[..|s| - 1], offsets, k);
    }
  }

  /** Removing a set of in-range offsets shortens the list by exactly the
      number of offsets. */
  lemma {:induction false} RemoveOffsetsLength<T>(s: seq<T>, offsets: set<nat>)
    requires forall o :: o in offsets ==> o < |s|
    ensures |RemoveOffsets(s, offsets)| == |s| - |offsets|
  {
    if |s| == 0 {
      assert offsets == {};
    } else {
      var last := |s| - 1;
      var init := s[..last];
      var rest := offsets - {last};
      RemoveOffsetsIgnoresPastEnd(init, offsets, last);
      RemoveOffsetsLength(init, rest);
    }
  }

  /** With distinct ids, an entry of the original list is still present after
      a removal exactly when its position was not among the offsets. */
  lemma RemoveOffsetsRemovesExactly(s: seq<AudioComment>, offsets: set<nat>, i: nat)
    requires DistinctIds(s)
    requires i < |s|
    ensures s[i] in RemoveOffsets(s, offsets) <==> i !in offsets
  {
    var r := RemoveOffsets(s, offsets);
    var idx := SurvivorIndices(|s|, offsets);
    RemoveOffsetsSelects(s, offsets);
    if i !in offsets {
      var k :| 0 <= k < |idx| && idx[k] == i;
      assert r[k] == s[i];
    } else {
      forall k | 0 <= k < |r| ensures r[k] != s[i] {
        assert idx[k] != i && s[idx[k]].id != s[i].id;
      }
    }
  }

  /** A removal keeps the ids distinct. */
  lemma RemoveOffsetsKeepsDistinct(s: seq<AudioComment>, offsets: set<nat>)
    requires DistinctIds(s)
    ensures DistinctIds(RemoveOffsets(s, offsets))
  {
    var r := RemoveOffsets(s, offsets);
    var idx := SurvivorIndices(|s|, offsets);
    RemoveOffsetsSelects(s, offsets);
    forall k, l | 0 <= k < |r| && 0 <= l < |r| && k != l
      ensures r[k].id != r[l].id
    {
      assert idx[k] != idx[l] by {
        if k < l { assert idx[k] < idx[l]; } else { assert idx[l] < idx[k]; }
      }
    }
  }

  /** A rename changes no id, so it keeps the ids distinct. */
  lemma RenameKeepsIds(s: seq<AudioComment>, c: AudioComment)
    ensures forall j :: 0 <= j < |s| ==> Rename(s, c)[j].id == s[j].id
    ensures DistinctIds(s) ==> DistinctIds(Rename(s, c))
  {
  }

  /** With distinct ids, a rename overwrites the one entry carrying the id,
      when there is one, and leaves every other entry as it was. */
  lemma RenameUnique(s: seq<AudioComment>, c: AudioComment, i: nat)
    requires DistinctIds(s)
    requires i < |s| && s[i].id == c.id
    ensures Rename(s, c) == s[i := c]
  {
  }

  /** Renaming twice with the same value is the same as renaming once. */
  lemma RenameIdempotent(s: seq<AudioComment>, c: AudioComment)
    ensures Rename(Rename(s, c), c) == Rename(s, c)
  {
  }

  /** The rename the player performs: a list entry is selected as the current
      comment and then only its title is edited. The rename changes that
      entry's title and nothing else in the list. */
  lemma RenameTitleOnly(s: seq<AudioComment>, current: AudioComment, title: string, i: nat)
    requires DistinctIds(s)
    requires i < |s| && s[i] == current
    ensures Rename(s, current.(title := title)) == s[i := s[i].(title := title)]
  {
  }

  /** Prepending a comment with a fresh id keeps the ids distinct. */
  lemma PrependFresh(s: seq<AudioComment>, c: AudioComment)
    requires DistinctIds(s) && FreshId(s, c.id)
    ensures DistinctIds([c] + s)
  {
  }
}
