/**
 * The event stream a streaming HTML tokenizer delivers to its callbacks
 * (open tag with its attributes, text chunk, close tag), and the
 * `String.prototype.split(' ')` the callbacks apply to a class attribute.
 */
module Html {
  import AssocList

  datatype Event =
    | OpenTag(name: string, attrs: AssocList.Dict<string>)
    | Text(text: string)
    | CloseTag(name: string)

  /** `s.split(' ')`: the pieces between single spaces; repeated, leading or trailing spaces yield empty pieces. */
  function SplitSpace(s: string): (tokens: seq<string>)
    ensures |tokens| >= 1
    ensures forall t :: t in tokens ==> ' ' !in t
  {
    if s == [] then [""]
    else
      var rest := SplitSpace(s[1..]);
      if s[0] == ' ' then [""] + rest
      else [[s[0]] + rest[0]] + rest[1..]
  }

  /** `tokens.join(' ')`. */
  function JoinSpace(tokens: seq<string>): string
    requires |tokens| >= 1
  {
    if |tokens| == 1 then tokens[0] else tokens[0] + " " + JoinSpace(tokens[1..])
  }

  /** Splitting loses nothing: joining the pieces with single spaces gives back the string. */
  lemma {:induction false} JoinSplit(s: string)
    ensures JoinSpace(SplitSpace(s)) == s
  {
    if s != [] {
      var rest := SplitSpace(s[1..]);
      JoinSplit(s[1..]);
      if s[0] != ' ' {
        var tokens := SplitSpace(s);
        assert tokens[1..] == rest[1..];
        if |rest| > 1 {
          assert JoinSpace(rest) == rest[0] + " " + JoinSpace(rest[1..]);
        }
      }
    }
  }

  /** A string without spaces is a single piece. */
  lemma {:induction false} SplitNoSpace(t: string)
    requires ' ' !in t
    ensures SplitSpace(t) == [t]
  {
    if t != [] {
      SplitNoSpace(t[1..]);
      assert [t[0]] + t[1..] == t;
    }
  }

  /** A space-free word followed by a space splits off as the first piece. */
  lemma {:induction false} SplitWordSpace(t: string, r: string)
    requires ' ' !in t
    ensures SplitSpace(t + " " + r) == [t] + SplitSpace(r)
  {
    if t == [] {
      assert t + " " + r == [' '] + r;
    } else {
      SplitWordSpace(t[1..], r);
      assert (t + " " + r)[1..] == t[1..] + " " + r;
      assert [t[0]] + t[1..] == t;
    }
  }

  /** Splitting recovers the pieces of a join, so the split pieces are exactly the space-free words. */
  lemma {:induction false} SplitJoin(tokens: seq<string>)
    requires |tokens| >= 1
    requires forall t :: t in tokens ==> ' ' !in t
    ensures SplitSpace(JoinSpace(tokens)) == tokens
  {
    if |tokens| == 1 {
      SplitNoSpace(tokens[0]);
    } else {
      SplitJoin(tokens[1..]);
      SplitWordSpace(tokens[0], JoinSpace(tokens[1..]));
      assert tokens == [tokens[0]] + tokens[1..];
    }
  }

  // ---------------------------------------------------------------------
  // Finding a separator, as the header and list readers do.

  /** The position of the first `c` in `s`, or `|s|`. */
  function IndexOf(s: string, c: char): (i: nat)
    ensures i <= |s|
    ensures forall j :: 0 <= j < i ==> s[j] != c
    ensures i < |s| ==> s[i] == c
  {
    if s == [] || s[0] == c then 0 else 1 + IndexOf(s[1..], c)
  }

  /** The separator right after a separator-free prefix is found at the prefix's length. */
  lemma {:induction false} IndexOfAfter(a: string, c: char, b: string)
    requires c !in a
    ensures IndexOf(a + [c] + b, c) == |a|
  {
    if a != [] {
      assert (a + [c] + b)[1..] == a[1..] + [c] + b;
      IndexOfAfter(a[1..], c, b);
    }
  }
}
