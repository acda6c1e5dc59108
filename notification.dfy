/**
 * The Telegram notification text: the ticket type, a fixed infix and the
 * available dates joined with `, `; and a reader that gets the dates back.
 */
module Notification {
  import opened Html

  /** `list.join(', ')`. */
  function JoinComma(xs: seq<string>): string
  {
    if xs == [] then "" else if |xs| == 1 then xs[0] else xs[0] + ", " + JoinComma(xs[1..])
  }

  const MessageInfix := " ticket - available dates: "

  /** The Telegram message for a ticket type whose dates changed. */
  function Message(ticketType: string, dates: seq<string>): string
  {
    ticketType + MessageInfix + JoinComma(dates)
  }

  /** Reading a list back from `join(', ')`: cut at each `,` and skip the space after it. */
  function SplitComma(s: string): (parts: seq<string>)
    ensures |parts| >= 1
    decreases |s|
  {
    var i := IndexOf(s, ',');
    if i == |s| then [s]
    else if i + 2 > |s| then [s[..i], ""]
    else [s[..i]] + SplitComma(s[i + 2..])
  }

  function UnjoinComma(s: string): seq<string>
  {
    if s == "" then [] else SplitComma(s)
  }

  /** Joining puts the first element, a comma and a space before the join of the rest. */
  lemma JoinCommaCons(xs: seq<string>)
    requires |xs| >= 2
    ensures JoinComma(xs) == xs[0] + [','] + ([' '] + JoinComma(xs[1..]))
  {
  }

  /** The join of a list whose first element is non-empty is non-empty. */
  lemma JoinCommaNonEmpty(xs: seq<string>)
    requires xs != [] && xs[0] != ""
    ensures JoinComma(xs) != ""
  {
    if |xs| >= 2 {
      JoinCommaCons(xs);
    }
  }

  /** A comma-free first piece is cut off at the comma, and the space after it is skipped. */
  lemma SplitCommaAfter(x: string, rest: string)
    requires ',' !in x
    ensures SplitComma(x + [','] + ([' '] + rest)) == [x] + SplitComma(rest)
  {
    var s := x + [','] + ([' '] + rest);
    IndexOfAfter(x, ',', [' '] + rest);
    assert s[..|x|] == x;
    assert s[|x| + 2..] == rest;
  }

  /** Dates that are non-empty and hold no comma can be read back from the joined list. */
  lemma {:induction false} JoinCommaRoundTrip(xs: seq<string>)
    requires forall x :: x in xs ==> x != "" && ',' !in x
    ensures UnjoinComma(JoinComma(xs)) == xs
    decreases |xs|
  {
    if xs == [] {
    } else if |xs| == 1 {
      assert xs[0] in xs;
      assert IndexOf(xs[0], ',') == |xs[0]|;
    } else {
      assert xs[0] in xs && xs[1] in xs;
      assert forall x :: x in xs[1..] ==> x in xs;
      JoinCommaCons(xs);
      JoinCommaNonEmpty(xs[1..]);
      SplitCommaAfter(xs[0], JoinComma(xs[1..]));
      JoinCommaRoundTrip(xs[1..]);
      assert xs == [xs[0]] + xs[1..];
    }
  }

  /** A notification names its ticket type and lists its available dates, which can be read back. */
  lemma MessageRoundTrip(ticketType: string, dates: seq<string>)
    requires forall d :: d in dates ==> d != "" && ',' !in d
    ensures var n := |ticketType + MessageInfix|;
      |Message(ticketType, dates)| >= n &&
      Message(ticketType, dates)[..n] == ticketType + MessageInfix &&
      UnjoinComma(Message(ticketType, dates)[n..]) == dates
  {
    var n := |ticketType + MessageInfix|;
    assert Message(ticketType, dates)[n..] == JoinComma(dates);
    JoinCommaRoundTrip(dates);
  }
}
