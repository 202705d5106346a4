/** The certificate generator (src/app/certificate/page.tsx): what the
    certificate shows for the two recipient names and the chosen date. */
module Certificate {
  import opened Text

  const DefaultDate := "01-07-2025"
  const DefaultName := "Recipient Name 1"

  /** The fixed citation printed on every certificate. */
  const Message := "In recognition of the successful completion of the marital counselling program. Your commitment, openness, and dedication to nurturing your relationship have been commendable. May this journey strengthen your bond and lead to a harmonious future together."

  /** The date line: an unset date shows the default; otherwise the
      dash-separated fields of the input's value are shown in reverse order. */
  function DisplayDate(date: string): (shown: string)
    ensures date == "" ==> shown == DefaultDate
    ensures date != "" ==> Split(shown, '-') == Reverse(Split(date, '-'))
  {
    var rev := Reverse(Split(date, '-'));
    assert forall i :: 0 <= i < |rev| ==> '-' !in rev[i];
    SplitJoin(rev, '-');
    if date == "" then DefaultDate else Join(rev, '-')
  }

  /** A date input's "yyyy-mm-dd" value is shown as "dd-mm-yyyy". */
  lemma DisplayDateDayFirst(y: string, m: string, d: string)
    requires '-' !in y && '-' !in m && '-' !in d
    ensures DisplayDate(y + "-" + m + "-" + d) == d + "-" + m + "-" + y
  {
    var parts := [y, m, d];
    assert parts[1..] == [m, d] && parts[1..][1..] == [d];
    assert Join(parts[1..], '-') == m + "-" + d;
    assert Join(parts, '-') == y + "-" + (m + "-" + d);
    assert y + "-" + (m + "-" + d) == y + "-" + m + "-" + d;
    SplitJoin(parts, '-');
    var rev := Reverse(parts);
    assert rev == [d, m, y];
    assert rev[1..] == [m, y] && rev[1..][1..] == [y];
    assert Join(rev[1..], '-') == m + "-" + y;
    assert Join(rev, '-') == d + "-" + (m + "-" + y);
    assert d + "-" + (m + "-" + y) == d + "-" + m + "-" + y;
  }

  /** Reformatting a shown non-empty date gives back the date: reversing the
      fields is its own inverse. */
  lemma DisplayDateInvolutive(date: string)
    requires date != ""
    ensures DisplayDate(DisplayDate(date)) == date
  {
    var parts := Split(date, '-');
    var rev := Reverse(parts);
    assert forall i :: 0 <= i < |rev| ==> '-' !in rev[i];
    SplitJoin(rev, '-');
    ReverseReverse(parts);
    JoinSplit(date, '-');
  }

  /** The first name line: the first name, or the placeholder when empty. */
  function FirstName(name1: string): (shown: string)
    ensures name1 != "" ==> shown == name1
    ensures name1 == "" ==> shown == DefaultName
  {
    if name1 != "" then name1 else DefaultName
  }

  /** The recipient lines: the first name, then "&" and the second name
      only when a second name was entered. */
  function RecipientLines(name1: string, name2: string): (lines: seq<string>)
    ensures name2 == "" <==> |lines| == 1
    ensures |lines| == 1 || |lines| == 3
    ensures lines[0] == FirstName(name1)
    ensures |lines| == 3 ==> lines[1] == "&" && lines[2] == name2
  {
    [FirstName(name1)] + (if name2 != "" then ["&", name2] else [])
  }
}
