/** Removal of the WordPress "read more" marker from the rendered content,
    `content.replace('<!--more-->', '')`: with a string pattern, JavaScript
    replaces only the first occurrence. */
module ReadMore {
  import opened Strings

  const Marker: string := "<!--more-->"

  /** The content with its first read-more marker removed. */
  function CleanContent(content: string): (r: string)
    ensures !Contains(content, Marker) ==> r == content
    ensures Contains(content, Marker) ==> |r| == |content| - 11
  {
    assert |Marker| == 11;
    RemoveFirst(content, Marker)
  }

  /** At the first marker `i`: the text before it is untouched, re-inserting
      the marker at `i` restores the content, and every later marker is still
      there, 11 characters further left. */
  lemma CleanContentAt(content: string, i: nat)
    requires OccursAt(content, Marker, i)
    requires forall j :: 0 <= j < i ==> !OccursAt(content, Marker, j)
    ensures CleanContent(content)[..i] == content[..i]
    ensures CleanContent(content)[..i] + Marker + CleanContent(content)[i..] == content
    ensures forall j :: i + 11 <= j && OccursAt(content, Marker, j) ==>
              OccursAt(CleanContent(content), Marker, j - 11)
  {
    assert |Marker| == 11;
    RemoveFirstAt(content, Marker, i);
  }

  /** Removal is a single pass: when the text before the first marker ends
      with a start of the marker and the text after it holds the rest, cutting
      the marker out joins the two into a new one. The cleaned content then
      still holds a marker, and cleaning it again gives something else, so
      removal is not idempotent. `NestedMarker` gives such a text. */
  lemma RemovalCanFormMarker(head: string, tail: string)
    requires head + tail == Marker
    requires forall j :: 0 <= j < |head| ==> !OccursAt(head + Marker + tail, Marker, j)
    ensures CleanContent(head + Marker + tail) == Marker
    ensures CleanContent(CleanContent(head + Marker + tail)) == ""
  {
    var s := head + Marker + tail;
    assert OccursAt(s, Marker, |head|) by {
      assert s[|head|..|head| + |Marker|] == Marker;
    }
    RemoveFirstAt(s, Marker, |head|);
    assert s[..|head|] == head && s[|head| + |Marker|..] == tail;
    assert OccursAt(Marker, Marker, 0) by {
      assert Marker[0..|Marker|] == Marker;
    }
    RemoveFirstAt(Marker, Marker, 0);
  }

  /** `<!--<!--more-->more-->`: the marker's first four characters, the
      marker, and the rest of it, with no earlier marker. */
  lemma NestedMarker(head: string, tail: string)
    requires head == "<!--" && tail == "more-->"
    ensures head + tail == Marker
    ensures forall j :: 0 <= j < |head| ==> !OccursAt(head + Marker + tail, Marker, j)
  {
    var s := head + Marker + tail;
    forall j | 0 <= j < 4 ensures !OccursAt(s, Marker, j) {
      if j == 0 {
        assert s[4] == '<' && Marker[4] == 'm';
        assert s[j..j + 11][4] == s[4];
      } else {
        assert s[j] != '<';
        assert s[j..j + 11][0] == s[j];
      }
    }
  }
}
