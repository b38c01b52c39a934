/** The comment page's client-side state: the selected paragraph, the comment
    box, the map from paragraph index to instruction, and the submitted result
    projected from that map in ascending index order. The DOM rendering and
    `marked` are not modelled. */
module CommentPage {
  import opened Wrappers
  import opened Text
  import opened Json
  import opened Segmenter

  /** The two sidebar tabs. */
  datatype Tab = EditTab | CommentsTab

  /** One entry of the submitted `comments` list. */
  datatype SubmittedComment = SubmittedComment(paragraphIndex: nat, paragraphText: string, instruction: string)
  {
    function ToJson(): Json {
      JObject([("paragraph_index", JNum(paragraphIndex)), ("paragraph_text", JStr(paragraphText)),
               ("instruction", JStr(instruction))])
    }
  }

  /** A strictly ascending sequence of indices. */
  predicate Ascending(s: seq<nat>) {
    forall i, j :: 0 <= i < j < |s| ==> s[i] < s[j]
  }

  /** The keys of `m` below `n`, in ascending order. */
  function KeysBelow(m: map<nat, string>, n: nat): (r: seq<nat>)
    ensures Ascending(r)
    ensures forall i :: 0 <= i < |r| ==> r[i] < n
    ensures forall k :: k in r <==> k in m && k < n
  {
    if n == 0 then []
    else KeysBelow(m, n - 1) + (if n - 1 in m then [n - 1] else [])
  }

  /** Two ascending sequences with the same elements are equal: the ascending
      order of a set of keys is unique. */
  lemma {:induction false} AscendingUnique(a: seq<nat>, b: seq<nat>)
    requires Ascending(a) && Ascending(b)
    requires forall k :: k in a <==> k in b
    ensures a == b
    decreases |a|
  {
    if a == [] {
      if b != [] {
        HeadMember(b);
        assert false;
      }
    } else {
      assert a[0] in b;
      assert b[0] in a;
      assert a[0] == b[0] by {
        var i :| 0 <= i < |a| && a[i] == b[0];
        var j :| 0 <= j < |b| && b[j] == a[0];
        assert a[0] <= a[i] && b[0] <= b[j];
      }
      forall k ensures k in a[1..] <==> k in b[1..] {
        if k in a[1..] {
          var i :| 1 <= i < |a| && a[i] == k;
          assert k in b && k != b[0];
        }
        if k in b[1..] {
          var j :| 1 <= j < |b| && b[j] == k;
          assert k in a && k != a[0];
        }
      }
      AscendingUnique(a[1..], b[1..]);
      assert a == [a[0]] + a[1..] && b == [b[0]] + b[1..];
    }
  }

  lemma HeadMember(s: seq<nat>)
    requires s != []
    ensures s[0] in s
  {
  }

  /** `Object.entries(commentMap).sort(...)`: any listing of the keys in ascending
      order is the one `KeysBelow` gives. */
  lemma SortedKeysUnique(m: map<nat, string>, n: nat, keys: seq<nat>)
    requires forall k :: k in m ==> k < n
    requires Ascending(keys) && forall k :: k in keys <==> k in m
    ensures keys == KeysBelow(m, n)
  {
    AscendingUnique(keys, KeysBelow(m, n));
  }

  /** The submitted entries for `keys`, in their order. */
  function Entries(keys: seq<nat>, m: map<nat, string>, ps: seq<Paragraph>): (r: seq<SubmittedComment>)
    requires forall i :: 0 <= i < |keys| ==> keys[i] in m && keys[i] < |ps|
    ensures |r| == |keys|
    ensures forall i :: 0 <= i < |r| ==> r[i] == SubmittedComment(keys[i], ps[keys[i]].raw, m[keys[i]])
  {
    seq(|keys|, i requires 0 <= i < |keys| => SubmittedComment(keys[i], ps[keys[i]].raw, m[keys[i]]))
  }

  /** `renderCommentList()`'s entries for the comments `m` of `n` shown
      paragraphs: every comment with its paragraph index, in ascending index
      order. */
  function CommentList(m: map<nat, string>, n: nat): (r: seq<(nat, string)>)
    requires forall k :: k in m ==> k < n
    ensures forall i, j :: 0 <= i < j < |r| ==> r[i].0 < r[j].0
    ensures forall i :: 0 <= i < |r| ==> r[i].0 in m && r[i].1 == m[r[i].0]
    ensures forall k :: k in m ==> exists i :: 0 <= i < |r| && r[i].0 == k
  {
    var keys := KeysBelow(m, n);
    var r := seq(|keys|, i requires 0 <= i < |keys| => (keys[i], m[keys[i]]));
    forall k | k in m ensures exists i :: 0 <= i < |r| && r[i].0 == k {
      assert k in keys;
      var i :| 0 <= i < |keys| && keys[i] == k;
      assert r[i].0 == k;
    }
    r
  }

  /** The `comments` list `submitComments()` sends for the comments `m` on the
      paragraphs `ps`: one entry per commented paragraph, in ascending index
      order, with the paragraph's source text and the comment. */
  function Submitted(m: map<nat, string>, ps: seq<Paragraph>): (r: seq<SubmittedComment>)
    requires forall k :: k in m ==> k < |ps|
    ensures forall i, j :: 0 <= i < j < |r| ==> r[i].paragraphIndex < r[j].paragraphIndex
    ensures forall i :: 0 <= i < |r| ==>
      && r[i].paragraphIndex in m
      && r[i].paragraphIndex < |ps|
      && r[i].paragraphText == ps[r[i].paragraphIndex].raw
      && r[i].instruction == m[r[i].paragraphIndex]
    ensures forall k :: k in m ==> exists i :: 0 <= i < |r| && r[i].paragraphIndex == k
  {
    var keys := KeysBelow(m, |ps|);
    var r := Entries(keys, m, ps);
    forall k | k in m ensures exists i :: 0 <= i < |r| && r[i].paragraphIndex == k {
      assert k in keys;
      var i :| 0 <= i < |keys| && keys[i] == k;
      assert r[i].paragraphIndex == k;
    }
    r
  }

  /** A strictly ascending listing of distinct keys has one entry per key. */
  lemma {:induction false} AscendingCount(keys: seq<nat>, m: map<nat, string>)
    requires Ascending(keys) && forall k :: k in keys <==> k in m
    ensures |keys| == |m|
    decreases |keys|
  {
    if keys == [] {
      assert m == map[];
    } else {
      var last := keys[|keys| - 1];
      var rest := keys[..|keys| - 1];
      forall k ensures k in rest <==> k in m - {last} {
        if k in rest {
          var i :| 0 <= i < |rest| && rest[i] == k;
          assert k in keys && k < last;
        }
        if k in m - {last} {
          assert k in keys;
          var i :| 0 <= i < |keys| && keys[i] == k;
          assert i != |keys| - 1;
          assert k == rest[i];
        }
      }
      AscendingCount(rest, m - {last});
      assert last in keys;
    }
  }

  /** Every comment is submitted exactly once: there are as many entries as
      comments. */
  lemma SubmittedCount(m: map<nat, string>, ps: seq<Paragraph>)
    requires forall k :: k in m ==> k < |ps|
    ensures |Submitted(m, ps)| == |m|
  {
    var keys := KeysBelow(m, |ps|);
    AscendingCount(keys, m);
  }

  /** The entries as the JSON objects `JSON.stringify` sends. */
  function Items(entries: seq<SubmittedComment>): (r: seq<Json>)
    ensures |r| == |entries| && forall i :: 0 <= i < |r| ==> r[i] == entries[i].ToJson()
  {
    seq(|entries|, i requires 0 <= i < |entries| => entries[i].ToJson())
  }

  /** `{status: 'submitted', comments: entries}`. */
  function SubmitBody(entries: seq<SubmittedComment>): (j: Json)
    ensures Get(j, "status") == Some(JStr("submitted"))
    ensures Get(j, "comments") == Some(JArray(Items(entries)))
  {
    GetObject2("status", JStr("submitted"), "comments", JArray(Items(entries)));
    Object2("status", JStr("submitted"), "comments", JArray(Items(entries)))
  }

  /** The body `cancelAll()` posts. */
  function CancelPayload(): (j: Json)
    ensures Get(j, "status") == Some(JStr("cancelled")) && Get(j, "comments") == Some(JArray([]))
    ensures j.JObject? && |j.members| == 2
  {
    GetObject2("status", JStr("cancelled"), "comments", JArray([]));
    Object2("status", JStr("cancelled"), "comments", JArray([]))
  }

  /** The comment page for the paragraphs it was generated with. */
  class CommentPage {
    const paragraphs: seq<Paragraph>
    var selectedIndex: Option<nat>
    var commentMap: map<nat, string>
    var currentTab: Tab
    /** The value of the comment box. */
    var draft: string

    /** Comments exist only for shown paragraphs, are never blank and carry no
        surrounding white space; a selection is a shown paragraph. */
    ghost predicate Valid()
      reads this
    {
      && (forall k :: k in commentMap ==> k < |paragraphs| && commentMap[k] != [] && IsTrimmed(commentMap[k], IsJsSpace))
      && (selectedIndex.Some? ==> selectedIndex.value < |paragraphs|)
    }

    constructor (paragraphs: seq<Paragraph>)
      ensures this.paragraphs == paragraphs && selectedIndex == None && commentMap == map[]
      ensures currentTab == EditTab && draft == ""
      ensures Valid()
    {
      this.paragraphs := paragraphs;
      selectedIndex := None;
      commentMap := map[];
      currentTab := EditTab;
      draft := "";
    }

    /** `selectParagraph(index)`: selects the paragraph, loads its comment (or
        nothing) into the comment box and shows the edit tab. */
    method SelectParagraph(index: nat)
      requires Valid() && index < |paragraphs|
      modifies this
      ensures Valid()
      ensures selectedIndex == Some(index) && currentTab == EditTab && commentMap == old(commentMap)
      ensures draft == if index in commentMap then commentMap[index] else ""
    {
      selectedIndex := Some(index);
      // `commentMap[index] || ''`: a missing entry loads as the empty string.
      draft := if index in commentMap && commentMap[index] != "" then commentMap[index] else "";
      if currentTab != EditTab {
        currentTab := EditTab;
      }
    }

    /** The user types into the comment box. */
    method EditDraft(text: string)
      modifies this
      ensures draft == text
      ensures selectedIndex == old(selectedIndex) && commentMap == old(commentMap) && currentTab == old(currentTab)
    {
      draft := text;
    }

    /** `saveComment()`: nothing without a selection or with a blank box;
        otherwise the trimmed text becomes the selected paragraph's comment,
        replacing any earlier one, and the selection is cleared. */
    method SaveComment()
      requires Valid()
      modifies this
      ensures Valid()
      ensures draft == old(draft) && currentTab == old(currentTab)
      ensures old(selectedIndex).None? || Trim(old(draft), IsJsSpace) == "" ==>
        selectedIndex == old(selectedIndex) && commentMap == old(commentMap)
      ensures old(selectedIndex).Some? && Trim(old(draft), IsJsSpace) != "" ==>
        && commentMap == old(commentMap)[old(selectedIndex).value := Trim(old(draft), IsJsSpace)]
        && selectedIndex == None
    {
      if selectedIndex == None {
        return;
      }
      var text := Trim(draft, IsJsSpace);
      if text == "" {
        return;
      }
      TrimFacts(draft, IsJsSpace);
      commentMap := commentMap[selectedIndex.value := text];
      CancelEdit();
    }

    /** `cancelEdit()`: clears the selection. */
    method CancelEdit()
      requires Valid()
      modifies this
      ensures Valid()
      ensures selectedIndex == None
      ensures commentMap == old(commentMap) && draft == old(draft) && currentTab == old(currentTab)
    {
      selectedIndex := None;
    }

    /** `deleteComment(index)`: removes that paragraph's comment, if any. */
    method DeleteComment(index: nat)
      requires Valid()
      modifies this
      ensures Valid()
      ensures commentMap == old(commentMap) - {index}
      ensures selectedIndex == old(selectedIndex) && draft == old(draft) && currentTab == old(currentTab)
    {
      commentMap := commentMap - {index};
    }

    /** `switchTab(tab)`. */
    method SwitchTab(tab: Tab)
      requires Valid()
      modifies this
      ensures Valid()
      ensures currentTab == tab
      ensures selectedIndex == old(selectedIndex) && commentMap == old(commentMap) && draft == old(draft)
    {
      currentTab := tab;
    }

    /** `Object.keys(commentMap).length`. */
    function CommentCount(): (n: nat)
      reads this
      ensures n == 0 <==> commentMap == map[]
    {
      |commentMap|
    }

    /** The submit button is enabled exactly when some paragraph has a comment. */
    function SubmitEnabled(): (enabled: bool)
      reads this
      ensures enabled <==> exists k :: k in commentMap
    {
      var count := CommentCount();
      if count == 0 then
        assert commentMap == map[];
        false
      else
        assert commentMap != map[];
        var k :| k in commentMap;
        true
    }

    /** The count badge: `"1 comment"`, otherwise `"<n> comments"`. */
    function CountLabel(): (badge: string)
      reads this
      ensures StartsWith(badge, NatToString(CommentCount()) + " comment")
      ensures |badge| > 0 && (badge[|badge| - 1] == 's' <==> CommentCount() != 1)
    {
      var count := CommentCount();
      NatToString(count) + " comment" + (if count != 1 then "s" else "")
    }

    /** The body `submitComments()` posts. */
    function SubmitPayload(): (j: Json)
      requires Valid()
      reads this
      ensures Get(j, "status") == Some(JStr("submitted"))
      ensures Get(j, "comments") == Some(JArray(Items(Submitted(commentMap, paragraphs))))
      ensures |Get(j, "comments").value.items| == |commentMap|
    {
      SubmittedCount(commentMap, paragraphs);
      SubmitBody(Submitted(commentMap, paragraphs))
    }
  }
}
