/** src/resources/static/tags.ts: the colour histogram and the ten most recently
    updated tags. */
module TagsResource {
  import opened Wrappers
  import opened Json
  import opened Errors
  import opened Entities
  import opened Seqs
  import opened ResourceCommon

  // ---- sorting a copy by updatedAt, most recent first ----

  predicate NewestFirst(s: seq<Tag>) {
    forall i, j :: 0 <= i < j < |s| ==> s[i].updatedAt >= s[j].updatedAt
  }

  /** Places `t` before the first tag that is not more recent than it. */
  function Insert(t: Tag, s: seq<Tag>): (r: seq<Tag>)
    ensures multiset(r) == multiset(s) + multiset{t}
    ensures |r| == |s| + 1
  {
    if s == [] || s[0].updatedAt <= t.updatedAt then [t] + s
    else
      assert s == [s[0]] + s[1..];
      [s[0]] + Insert(t, s[1..])
  }

  lemma {:induction false} InsertSorted(t: Tag, s: seq<Tag>)
    requires NewestFirst(s)
    ensures NewestFirst(Insert(t, s))
  {
    if s != [] && s[0].updatedAt > t.updatedAt {
      var tail := s[1..];
      var rest := Insert(t, tail);
      InsertSorted(t, tail);
      // the head of `rest` is `t` or the second tag, neither more recent than s[0]
      if tail != [] && tail[0].updatedAt > t.updatedAt {
        assert rest[0] == s[1];
      }
      assert rest[0].updatedAt <= s[0].updatedAt;
      var r := [s[0]] + rest;
      assert Insert(t, s) == r;
      forall i, j | 0 <= i < j < |r| ensures r[i].updatedAt >= r[j].updatedAt {
        assert r[j] == rest[j - 1];
        if i > 0 {
          assert r[i] == rest[i - 1];
        } else if j > 1 {
          assert rest[0].updatedAt >= rest[j - 1].updatedAt;
        }
      }
    }
  }

  /** `[...tags].sort((a, b) => b.updatedAt - a.updatedAt)`: the same tags, most recent
      first; the input is not changed. */
  function SortNewestFirst(tags: seq<Tag>): (r: seq<Tag>)
    ensures multiset(r) == multiset(tags)
    ensures |r| == |tags|
  {
    if tags == [] then []
    else
      assert tags == [tags[0]] + tags[1..];
      Insert(tags[0], SortNewestFirst(tags[1..]))
  }

  lemma {:induction false} SortNewestFirstSorted(tags: seq<Tag>)
    ensures NewestFirst(SortNewestFirst(tags))
  {
    if tags != [] {
      SortNewestFirstSorted(tags[1..]);
      InsertSorted(tags[0], SortNewestFirst(tags[1..]));
    }
  }

  // ---- the colour histogram ----

  /** `tag.color || 'no-color'`. */
  function ColorKey(t: Tag): (k: string)
    ensures k != ""
  {
    if HasText(t.color) then t.color.value else "no-color"
  }

  function ColorKeys(tags: seq<Tag>): (ks: seq<string>)
    ensures |ks| == |tags|
    ensures forall i :: 0 <= i < |tags| ==> ks[i] == ColorKey(tags[i])
  {
    seq(|tags|, i requires 0 <= i < |tags| => ColorKey(tags[i]))
  }

  /** One entry of `recentTags`. */
  datatype TagEntry = TagEntry(id: string, name: string, color: Option<string>)

  function Entry(t: Tag): TagEntry {
    TagEntry(t.id, t.name, t.color)
  }

  datatype TagsResource = TagsResource(count: nat, byColor: seq<Bucket>, recentTags: seq<TagEntry>)

  const FailurePrefix := "Failed to retrieve tags: "

  /** getTagsResource; `listed` is the outcome of listTags. The histogram is filled
      by the forEach over the tags in their listed order. */
  method GetTagsResource(listed: Result<seq<Tag>, Thrown>) returns (r: Result<TagsResource, Thrown>)
    ensures listed.Failure? ==> r == Failure(ResourceFailure(FailurePrefix, listed.error))
    ensures listed.Success? ==> r.Success?
    ensures listed.Success? ==>
      var tags := listed.value;
      r.value.count == |tags| &&
      Keys(r.value.byColor) == Distinct(ColorKeys(tags)) &&
      (forall i :: 0 <= i < |r.value.byColor| ==>
         r.value.byColor[i].count == Occurrences(ColorKeys(tags), r.value.byColor[i].key)) &&
      Total(r.value.byColor) == r.value.count &&
      |r.value.recentTags| == (if |tags| < 10 then |tags| else 10) &&
      forall i :: 0 <= i < |r.value.recentTags| ==> r.value.recentTags[i] == Entry(SortNewestFirst(tags)[i])
  {
    if listed.Failure? {
      r := Failure(ResourceFailure(FailurePrefix, listed.error));
      return;
    }
    var tags := listed.value;
    var sorted := SortNewestFirst(tags);
    var byColor := Tally(ColorKeys(tags));
    var recent := Take(sorted, 10);
    r := Success(TagsResource(|tags|, byColor, seq(|recent|, i requires 0 <= i < |recent| => Entry(recent[i]))));
  }

  /** The recent tags are the most recent ones: none of the tags left out is newer
      than any tag shown. */
  lemma RecentAreNewest(tags: seq<Tag>, i: nat, j: nat)
    requires i < 10 && i < j < |tags|
    ensures SortNewestFirst(tags)[i].updatedAt >= SortNewestFirst(tags)[j].updatedAt
  {
    SortNewestFirstSorted(tags);
  }
}
