/** The date shown in the front matter and the file name: the `YYYY-MM-DD`
    part of the post's ISO-8601 `date`, taken as `date.split('T')[0]`. */
module PostDate {
  import opened Wrappers
  import opened Strings

  /** Everything in `date` before its first `T`; all of `date` when it has
      none. */
  function DatePart(date: string): (r: string)
    ensures IsPrefix(r, date)
    ensures 'T' !in r
    ensures |r| < |date| ==> date[|r|] == 'T'
    ensures 'T' !in date ==> r == date
  {
    match IndexOf(date, "T")
    case None =>
      assert forall j :: 0 <= j < |date| ==> !OccursAt(date, "T", j);
      assert forall j :: 0 <= j < |date| ==> date[j] != 'T' by {
        forall j | 0 <= j < |date| ensures date[j] != 'T' {
          assert !OccursAt(date, "T", j);
          assert date[j..j + 1] == [date[j]];
        }
      }
      date
    case Some(i) =>
      assert forall j :: 0 <= j < i ==> date[j] != 'T' by {
        forall j | 0 <= j < i ensures date[j] != 'T' {
          assert !OccursAt(date, "T", j);
          assert date[j..j + 1] == [date[j]];
        }
      }
      assert date[i..i + 1] == "T";
      date[..i]
  }

  /** A timestamp `day + "T" + time` gives back `day`, whatever the time part
      holds (including further `T`s). */
  lemma {:induction false} DatePartOfTimestamp(day: string, time: string)
    requires 'T' !in day
    ensures DatePart(day + "T" + time) == day
  {
    var d := day + "T" + time;
    var r := DatePart(d);
    assert forall k :: 0 <= k < |day| ==> d[k] == day[k];
    assert d[|day|] == 'T';
    assert r == d[..|r|];
  }
}
