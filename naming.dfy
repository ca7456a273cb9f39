/** The name given to a new ticket channel, which depends on the ticket type. */
module Naming {
  import opened Common
  import opened Text

  /** `ticket_type.lower().replace(' ', '-')`. */
  function TypeSlug(t: TicketType): (r: string)
    ensures |r| == |t.Label()|
    ensures Lacks(r, ' ') && NoAsciiUpper(r)
  {
    ReplaceChar(Lower(t.Label()), ' ', '-')
  }

  /** New Order channels are named after the user and the month-day of creation, Check Referral
      channels all share one fixed name, and the other types use the type's slug and the user. */
  function ChannelName(t: TicketType, userName: string, monthDay: string): string {
    if t == NewOrder then "order-" + Lower(userName) + "-" + monthDay
    else if t == CheckReferral then "check-referral"
    else TypeSlug(t) + "-" + Lower(userName)
  }

  /** Which parts a channel name is made of, by type. */
  lemma ChannelNameParts(t: TicketType, userName: string, monthDay: string)
    ensures t == NewOrder ==>
      StartsWith(ChannelName(t, userName, monthDay), "order-") && EndsWith(ChannelName(t, userName, monthDay), "-" + monthDay)
    ensures t == CheckReferral ==> ChannelName(t, userName, monthDay) == "check-referral"
    ensures t != NewOrder && t != CheckReferral ==>
      StartsWith(ChannelName(t, userName, monthDay), TypeSlug(t) + "-") && EndsWith(ChannelName(t, userName, monthDay), Lower(userName))
  {
    var r := ChannelName(t, userName, monthDay);
    if t == NewOrder {
      var u := Lower(userName);
      assert r == "order-" + (u + "-" + monthDay);
      Affixes("order-", u + "-" + monthDay);
      assert r == ("order-" + u) + ("-" + monthDay);
      Affixes("order-" + u, "-" + monthDay);
    } else if t != CheckReferral {
      Affixes(TypeSlug(t) + "-", Lower(userName));
    }
  }

  /** A concatenation starts with its left part and ends with its right part. */
  lemma Affixes(a: string, b: string)
    ensures StartsWith(a + b, a) && EndsWith(a + b, b)
  {
    assert (a + b)[..|a|] == a;
    assert (a + b)[|a + b| - |b|..] == b;
  }

  /** For a user name and date without spaces and a date without capitals, the channel name has
      neither spaces nor capitals, as Discord requires of text-channel names. */
  lemma ChannelNameWellFormed(t: TicketType, userName: string, monthDay: string)
    requires Lacks(userName, ' ') && Lacks(monthDay, ' ') && NoAsciiUpper(monthDay)
    ensures Lacks(ChannelName(t, userName, monthDay), ' ')
    ensures NoAsciiUpper(ChannelName(t, userName, monthDay))
  {
    var u := Lower(userName);
    LowerNormalizes(userName);
    assert Lacks(u, ' ');
    if t == NewOrder {
      DatedNameClean(u, monthDay);
    } else if t == CheckReferral {
      LiteralClean("check-referral");
    } else {
      SlugNameClean(t, u);
    }
  }

  lemma DatedNameClean(u: string, monthDay: string)
    requires Lacks(u, ' ') && NoAsciiUpper(u) && Lacks(monthDay, ' ') && NoAsciiUpper(monthDay)
    ensures Lacks("order-" + u + "-" + monthDay, ' ') && NoAsciiUpper("order-" + u + "-" + monthDay)
  {
    LiteralClean("order-");
    LiteralClean("-");
    ConcatClean("order-", u);
    ConcatClean("-", monthDay);
    ConcatClean("order-" + u, "-" + monthDay);
    assert "order-" + u + "-" + monthDay == ("order-" + u) + ("-" + monthDay);
  }

  lemma SlugNameClean(t: TicketType, u: string)
    requires Lacks(u, ' ') && NoAsciiUpper(u)
    ensures Lacks(TypeSlug(t) + "-" + u, ' ') && NoAsciiUpper(TypeSlug(t) + "-" + u)
  {
    LiteralClean("-");
    ConcatClean(TypeSlug(t), "-");
    ConcatClean(TypeSlug(t) + "-", u);
  }

  /** A string made only of lower-case ASCII letters and '-' has neither spaces nor capitals. */
  lemma LiteralClean(s: string)
    requires forall i :: 0 <= i < |s| ==> s[i] == '-' || 'a' <= s[i] <= 'z'
    ensures Lacks(s, ' ') && NoAsciiUpper(s)
  {
  }

  lemma ConcatClean(a: string, b: string)
    requires Lacks(a, ' ') && NoAsciiUpper(a) && Lacks(b, ' ') && NoAsciiUpper(b)
    ensures Lacks(a + b, ' ') && NoAsciiUpper(a + b)
  {
  }
}
