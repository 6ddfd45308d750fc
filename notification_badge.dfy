/** The red unread badge next to a project's name. */
module NotificationBadge {
  import opened Wrappers
  import Text

  const Overflow := "99+"

  /** The badge's text: nothing for exactly 0, '99+' above 99, the number itself otherwise. */
  function BadgeLabel(count: int): Option<string>
  {
    if count == 0 then None
    else if count > 99 then Some(Overflow)
    else Some(Text.IntToString(count))
  }

  /**
   * Only a zero count hides the badge. Counts from 1 to 99 are shown as their own one-
   * or two-digit decimal text without a leading zero, larger ones as '99+', and a
   * negative count is still shown, with its minus sign.
   */
  lemma BadgeLabelCases(count: int)
    ensures BadgeLabel(count).None? <==> count == 0
    ensures count > 99 ==> BadgeLabel(count) == Some(Overflow)
    ensures 1 <= count <= 99 ==>
      var s := BadgeLabel(count).value;
      1 <= |s| <= 2 && s[0] != '0' && (forall i :: 0 <= i < |s| ==> '0' <= s[i] <= '9') && Text.DigitsValue(s) == count
    ensures count < 0 ==> BadgeLabel(count).Some? && BadgeLabel(count).value[0] == '-'
  {
    if 1 <= count <= 99 {
      Text.NatToStringRoundTrip(count);
      if count >= 10 {
        assert Text.NatToString(count) == Text.NatToString(count / 10) + [Text.DigitChar(count % 10)];
      }
    }
  }

  /** Two different counts up to 99 never share a label. */
  lemma LabelsDistinguishSmallCounts(a: int, b: int)
    requires 1 <= a <= 99 && 1 <= b <= 99 && a != b
    ensures BadgeLabel(a) != BadgeLabel(b)
  {
    BadgeLabelCases(a);
    BadgeLabelCases(b);
  }
}
